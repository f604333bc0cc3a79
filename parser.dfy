/**
 * The query parser: a prefix-notation query string such as
 * "#and(apple #near/2(pie crust.title))" becomes a query tree, which is
 * then optimized by dropping empty operators and collapsing operators that
 * are left with a single argument.
 *
 * The string helpers (counting, parenthesis balancing, popping a term or a
 * subquery, operator lookup, field splitting) are values; the parse loop,
 * the counting loops and the optimizer's argument rewrite are methods proved
 * equal to the functional specifications beside them.  The Lucene analyzer
 * that turns a raw term into index terms is the parameter `tokenize`.
 */
module QryParser {
  import opened Support

  // ------------------------------------------------------------ query tree

  /** Operator classes the parser can build (Score is added by appendArg). */
  datatype OpKind =
    | Or | Syn | And | Near(distance: int) | Sum | Window(distance: int)
    | Wsum | Wand | Score

  datatype Qry =
    | Term(term: string, field: string)
    | Op(kind: OpKind, name: string, args: seq<Qry>, weights: string)

  datatype SyntaxError =
    | Parentheses
    | UnknownOperator(operator: string)
    | UnknownField(token: string)
    | NumberFormat(text: string)

  /** Inverted-list operators: terms, #syn, #near and #window. */
  predicate IsInvList(q: Qry)
  {
    q.Term? || q.kind.Syn? || q.kind.Near? || q.kind.Window?
  }

  /** Weighted operators receive the pending weight string. */
  predicate IsWeighted(k: OpKind)
  {
    k.Wsum? || k.Wand?
  }

  /**
   * QrySop.appendArg is not part of this model; the model takes the
   * framework's convention that a score operator receiving an inverted-list
   * argument receives it wrapped in a #score operator.
   */
  function AppendArg(tree: Qry, arg: Qry): (r: Qry)
    requires tree.Op?
    ensures r.Op? && r.kind == tree.kind && r.name == tree.name && r.weights == tree.weights
    ensures |r.args| == |tree.args| + 1 && r.args[..|tree.args|] == tree.args
    ensures IsInvList(tree) || !IsInvList(arg) ==> r.args[|tree.args|] == arg
    ensures !IsInvList(tree) && IsInvList(arg) ==>
              r.args[|tree.args|] == Op(Score, "#score", [arg], "")
  {
    var a := if !IsInvList(tree) && IsInvList(arg) then Op(Score, "#score", [arg], "") else arg;
    tree.(args := tree.args + [a])
  }

  /**
   * The arguments one popped token produces, appended one by one; before
   * each of them a weighted operator receives the pending weight string.
   */
  function AppendAll(tree: Qry, weights: string, items: seq<Qry>): (r: Qry)
    requires tree.Op?
    ensures r.Op? && r.kind == tree.kind && r.name == tree.name
    ensures |r.args| == |tree.args| + |items| && r.args[..|tree.args|] == tree.args
    ensures r.weights == if items != [] && IsWeighted(tree.kind) then weights else tree.weights
    ensures forall j :: 0 <= j < |items| ==>
              r.args[|tree.args| + j] ==
                if !IsInvList(tree) && IsInvList(items[j]) then Op(Score, "#score", [items[j]], "") else items[j]
    decreases |items|
  {
    if items == [] then tree
    else
      var t := if IsWeighted(tree.kind) then tree.(weights := weights) else tree;
      AppendAll(AppendArg(t, items[0]), weights, items[1..])
  }

  // -------------------------------------------------------------- counting

  /** The number of occurrences of c in s, counted from the left. */
  function Count(s: string, c: char): nat
  {
    if s == [] then 0 else Count(s[..|s| - 1], c) + (if s[|s| - 1] == c then 1 else 0)
  }

  lemma CountStep(s: string, c: char, i: nat)
    requires i < |s|
    ensures Count(s[..i + 1], c) == Count(s[..i], c) + (if s[i] == c then 1 else 0)
  {
    assert s[..i + 1][..i] == s[..i];
  }

  /** The count is the multiplicity of c in the multiset of s's characters. */
  lemma {:induction false} CountIsMultiplicity(s: string, c: char)
    ensures Count(s, c) == multiset(s)[c]
  {
    if s != [] {
      CountIsMultiplicity(s[..|s| - 1], c);
      assert s == s[..|s| - 1] + [s[|s| - 1]];
    }
  }

  /** countChars: the number of occurrences of c in s. */
  method CountChars(s: string, c: char) returns (count: nat)
    ensures count == Count(s, c)
  {
    count := 0;
    assert s[..0] == [];
    for i := 0 to |s|
      invariant count == Count(s[..i], c)
    {
      CountStep(s, c, i);
      if s[i] == c {
        count := count + 1;
      }
    }
    assert s[..|s|] == s;
  }

  /** Open minus close parentheses. */
  function Depth(s: string): int
  {
    if s == [] then 0
    else Depth(s[..|s| - 1]) + (if s[|s| - 1] == '(' then 1 else if s[|s| - 1] == ')' then -1 else 0)
  }

  lemma DepthStep(s: string, i: nat)
    requires i < |s|
    ensures Depth(s[..i + 1]) ==
              Depth(s[..i]) + (if s[i] == '(' then 1 else if s[i] == ')' then -1 else 0)
  {
    assert s[..i + 1][..i] == s[..i];
  }

  /** A ')' at index i that brings the depth of s[..i+1] back to zero. */
  predicate ClosesAt(s: string, i: int)
  {
    0 <= i < |s| && s[i] == ')' && Depth(s[..i + 1]) == 0
  }

  /** The scan of indexOfBalencingParen from index i with the given depth. */
  function BalanceFrom(s: string, i: nat, depth: int): (r: int)
    requires i <= |s| && depth == Depth(s[..i])
    ensures r == -1 ==> forall j :: i <= j < |s| ==> !ClosesAt(s, j)
    ensures r != -1 ==> i <= r < |s| && ClosesAt(s, r) &&
                        forall j :: i <= j < r ==> !ClosesAt(s, j)
    decreases |s| - i
  {
    if i == |s| then -1
    else
      DepthStep(s, i);
      if s[i] == '(' then BalanceFrom(s, i + 1, depth + 1)
      else if s[i] == ')' then
        if depth - 1 == 0 then i else BalanceFrom(s, i + 1, depth - 1)
      else BalanceFrom(s, i + 1, depth)
  }

  /**
   * The index of the ')' balancing the left-most '(' — the first ')' after
   * which as many '(' as ')' have been seen — or -1.
   */
  function BalancingIndex(s: string): (r: int)
    ensures r == -1 <==> forall j :: 0 <= j < |s| ==> !ClosesAt(s, j)
    ensures r != -1 ==> ClosesAt(s, r) && forall j :: 0 <= j < r ==> !ClosesAt(s, j)
  {
    assert s[..0] == [];
    BalanceFrom(s, 0, 0)
  }

  /** indexOfBalencingParen, the counter loop with its early return. */
  method IndexOfBalencingParen(s: string) returns (r: int)
    ensures r == BalancingIndex(s)
  {
    var depth := 0;
    assert s[..0] == [];
    for i := 0 to |s|
      invariant depth == Depth(s[..i])
      invariant BalanceFrom(s, i, depth) == BalancingIndex(s)
    {
      DepthStep(s, i);
      if s[i] == '(' {
        depth := depth + 1;
      } else if s[i] == ')' {
        depth := depth - 1;
        if depth == 0 {
          return i;
        }
      }
    }
    return -1;
  }

  /** Nested parentheses: the ')' closing the first '(' is found past the inner pair. */
  lemma BalancingNestedExample()
    ensures BalancingIndex("(a (b)) c)") == 6
  {
    var t := "(a (b)) c)";
    assert t[..0] == [];
    DepthStep(t, 0); DepthStep(t, 1); DepthStep(t, 2); DepthStep(t, 3);
    DepthStep(t, 4); DepthStep(t, 5); DepthStep(t, 6);
    assert ClosesAt(t, 6);
    assert !ClosesAt(t, 5);
    assert forall j :: 0 <= j < 5 ==> t[j] != ')';
  }

  /** A ')' that drives the depth below zero balances nothing; no ')' gives -1. */
  lemma BalancingUnmatchedExamples()
    ensures BalancingIndex(")(") == -1
    ensures BalancingIndex("#or a") == -1
  {
    assert ")("[..1] == ")";
    assert !ClosesAt(")(", 0);
    assert !ClosesAt(")(", 1);
    assert forall j :: 0 <= j < 5 ==> "#or a"[j] != ')';
  }

  // ---------------------------------------------------------------- popTerm

  /** The characters of the split pattern [ \t\n\r]+. */
  predicate IsSpace(c: char)
  {
    c == ' ' || c == '\t' || c == '\n' || c == '\r'
  }

  predicate NoSpace(s: string)
  {
    forall i :: 0 <= i < |s| ==> !IsSpace(s[i])
  }

  /** The first whitespace index from i on, or -1. */
  function FirstSpace(s: string, i: nat): (k: int)
    requires i <= |s|
    ensures k == -1 <==> NoSpace(s[i..])
    ensures k != -1 ==> i <= k < |s| && IsSpace(s[k]) && NoSpace(s[i..k])
    decreases |s| - i
  {
    if i == |s| then -1
    else if IsSpace(s[i]) then i
    else
      var k := FirstSpace(s, i + 1);
      assert s[i..] == [s[i]] + s[i + 1..];
      if k != -1 then assert s[i..k] == [s[i]] + s[i + 1..k]; k else k
  }

  /** The end of the whitespace run that starts at i. */
  function SpaceRunEnd(s: string, i: nat): (j: nat)
    requires i <= |s|
    ensures i <= j <= |s|
    ensures forall k :: i <= k < j ==> IsSpace(s[k])
    ensures j == |s| || !IsSpace(s[j])
    decreases |s| - i
  {
    if i == |s| || !IsSpace(s[i]) then i else SpaceRunEnd(s, i + 1)
  }

  /**
   * popTerm: split at the first whitespace run; the token is what precedes
   * it and the remainder what follows it, or "" when there is no whitespace.
   */
  function PopTerm(s: string): (p: (string, string))
    ensures NoSpace(p.0)
    ensures NoSpace(s) ==> p == (s, "")
    ensures !NoSpace(s) ==>
              |p.0| + |p.1| < |s| && s[..|p.0|] == p.0 && s[|s| - |p.1|..] == p.1 &&
              (forall i :: |p.0| <= i < |s| - |p.1| ==> IsSpace(s[i])) &&
              (p.1 == [] || !IsSpace(p.1[0]))
    ensures s != [] ==> |p.1| < |s|
  {
    assert s[0..] == s;
    var k := FirstSpace(s, 0);
    if k == -1 then (s, "")
    else
      assert s[0..k] == s[..k];
      var j := SpaceRunEnd(s, k);
      (s[..k], s[j..])
  }

  lemma {:induction false} FirstSpaceAt(s: string, i: nat, k: nat)
    requires i <= k < |s| && IsSpace(s[k])
    requires forall j :: i <= j < k ==> !IsSpace(s[j])
    ensures FirstSpace(s, i) == k
    decreases k - i
  {
    if i < k {
      FirstSpaceAt(s, i + 1, k);
    }
  }

  lemma {:induction false} SpaceRunEndAt(s: string, i: nat, j: nat)
    requires i <= j <= |s|
    requires forall k :: i <= k < j ==> IsSpace(s[k])
    requires j == |s| || !IsSpace(s[j])
    ensures SpaceRunEnd(s, i) == j
    decreases j - i
  {
    if i < j {
      SpaceRunEndAt(s, i + 1, j);
    }
  }

  /** A token without whitespace followed by one blank pops back off. */
  lemma PopTermRoundTrip(token: string, rest: string)
    requires NoSpace(token)
    requires rest == [] || !IsSpace(rest[0])
    ensures PopTerm(token + " " + rest) == (token, rest)
  {
    var s := token + " " + rest;
    FirstSpaceAt(s, 0, |token|);
    SpaceRunEndAt(s, |token|, |token| + 1);
    assert s[..|token|] == token;
    assert s[|token| + 1..] == rest;
  }

  // ----------------------------------------------------------- popSubquery

  /**
   * popSubquery as written: when no ')' balances the first '(' the index
   * falls back to the string's length and substring(0, length + 1) throws
   * StringIndexOutOfBoundsException, modelled as None.
   */
  function PopSubqueryAsWritten(s: string): (r: Option<(string, string)>)
    ensures r.None? <==> BalancingIndex(s) == -1
    ensures r.Some? ==> r.value.0 + r.value.1 == s && ClosesAt(s, |r.value.0| - 1)
  {
    var b := BalancingIndex(s);
    var i := if b < 0 then |s| else b;
    if i + 1 > |s| then None
    else
      assert s[..i + 1] + s[i + 1..] == s;
      Some((s[..i + 1], s[i + 1..]))
  }

  /**
   * popSubquery with the evident intent of its fallback ("just don't
   * fail"): with no balancing ')' the whole string is popped, and the
   * recursive parse of it reports the parenthesis error.
   */
  function PopSubquery(s: string): (p: (string, string))
    ensures p.0 + p.1 == s
    ensures BalancingIndex(s) != -1 ==> |p.0| == BalancingIndex(s) + 1 && ClosesAt(s, |p.0| - 1)
    ensures BalancingIndex(s) == -1 ==> p == (s, "")
    ensures s != [] ==> |p.1| < |s|
  {
    var b := BalancingIndex(s);
    if b < 0 then (s, "")
    else
      assert s[..b + 1] + s[b + 1..] == s;
      (s[..b + 1], s[b + 1..])
  }

  /** Where the source's popSubquery succeeds, the corrected one agrees. */
  lemma PopSubqueryAgrees(s: string)
    requires PopSubqueryAsWritten(s).Some?
    ensures PopSubquery(s) == PopSubqueryAsWritten(s).value
  {
  }

  // -------------------------------------------------- Integer.parseInt

  const MinInt32: int := -0x8000_0000
  const MaxInt32: int := 0x7fff_ffff

  predicate AllDigits(s: string)
  {
    |s| > 0 && forall i :: 0 <= i < |s| ==> IsDigit(s[i])
  }

  /** Decimal value, most significant digit first. */
  function DigitsValue(s: string): nat
    requires forall i :: 0 <= i < |s| ==> IsDigit(s[i])
  {
    if s == [] then 0 else DigitsValue(s[..|s| - 1]) * 10 + DigitValue(s[|s| - 1])
  }

  /** The text Integer.parseInt accepts: an optional sign, then digits. */
  predicate IsIntText(s: string)
  {
    AllDigits(s) || (|s| >= 2 && (s[0] == '-' || s[0] == '+') && AllDigits(s[1..]))
  }

  /** Integer.parseInt over ASCII digits: 32-bit range or NumberFormatException. */
  function ParseInt(s: string): (r: Result<int, SyntaxError>)
    ensures r.Ok? ==> IsIntText(s) && MinInt32 <= r.value <= MaxInt32
    ensures r.Err? ==> r.error == NumberFormat(s)
  {
    if !IsIntText(s) then Err(NumberFormat(s))
    else
      var v: int := if AllDigits(s) then DigitsValue(s)
               else if s[0] == '-' then -(DigitsValue(s[1..]) as int)
               else DigitsValue(s[1..]);
      if MinInt32 <= v <= MaxInt32 then Ok(v) else Err(NumberFormat(s))
  }

  lemma {:induction false} DigitsOfNat(n: nat)
    ensures AllDigits(NatToString(n))
    ensures DigitsValue(NatToString(n)) == n
  {
    var s := NatToString(n);
    if n >= 10 {
      DigitsOfNat(n / 10);
      assert s[..|s| - 1] == NatToString(n / 10);
    }
  }

  /** Printing a 32-bit value and parsing it back gives the value. */
  lemma ParseIntRoundTrip(n: nat)
    requires n <= MaxInt32
    ensures ParseInt(NatToString(n)) == Ok(n)
    ensures ParseInt("-" + NatToString(n)) == Ok(-(n as int))
  {
    DigitsOfNat(n);
    var s := "-" + NatToString(n);
    assert s[1..] == NatToString(n);
    assert !AllDigits(s) by { assert !IsDigit(s[0]); }
  }

  // -------------------------------------------------------- createOperator

  /** The lower-case spelling each operator is looked up by. */
  function Spelling(k: OpKind): string
  {
    match k
    case Or => "#or"
    case Syn => "#syn"
    case And => "#and"
    case Near(_) => "#near"
    case Sum => "#sum"
    case Window(_) => "#window"
    case Wsum => "#wsum"
    case Wand => "#wand"
    case Score => "#score"
  }

  /** The switch of createOperator over the lower-cased name. */
  function LookupOperator(lower: string, distance: int): (r: Option<OpKind>)
    ensures r.Some? ==> Spelling(r.value) == lower && !r.value.Score?
    ensures r.Some? && (r.value.Near? || r.value.Window?) ==> r.value.distance == distance
  {
    if lower == "#or" then Some(Or)
    else if lower == "#syn" then Some(Syn)
    else if lower == "#and" then Some(And)
    else if lower == "#near" then Some(Near(distance))
    else if lower == "#sum" then Some(Sum)
    else if lower == "#window" then Some(Window(distance))
    else if lower == "#wsum" then Some(Wsum)
    else if lower == "#wand" then Some(Wand)
    else None
  }

  /** Every parseable operator is found again from its own spelling. */
  lemma LookupSpelling(k: OpKind, distance: int)
    requires !k.Score?
    ensures LookupOperator(Spelling(k), distance) ==
              Some(if k.Near? then Near(distance) else if k.Window? then Window(distance) else k)
  {
  }

  /** Whether a name is an operator does not depend on the distance. */
  lemma LookupIgnoresDistance(lower: string, d1: int, d2: int)
    ensures LookupOperator(lower, d1).None? == LookupOperator(lower, d2).None?
  {
  }

  /**
   * createOperator: a "/n" suffix is parsed as the distance and cut off,
   * the rest is looked up case-insensitively and kept as display name.
   */
  function CreateOperator(text: string): (r: Result<Qry, SyntaxError>)
    ensures r.Ok? ==> r.value.Op? && r.value.args == [] && r.value.weights == "" &&
                      '/' !in r.value.name && |r.value.name| <= |text| &&
                      r.value.name == text[..|r.value.name|] &&
                      Spelling(r.value.kind) == Lower(r.value.name) && !r.value.kind.Score?
    ensures '/' !in text ==> (r.Ok? || r == Err(UnknownOperator(text)))
    ensures r.Err? && r.error.UnknownOperator? ==> LookupOperator(Lower(r.error.operator), 0).None?
  {
    var slash := IndexOf(text, '/');
    var distance :- if slash >= 0 then ParseInt(text[slash + 1..]) else Ok(0);
    var name := if slash >= 0 then text[..slash] else text;
    assert slash >= 0 ==> '/' !in name by {
      if slash >= 0 { assert forall j :: 0 <= j < |name| ==> name[j] == text[j]; }
    }
    match LookupOperator(Lower(name), distance)
    case None =>
      LookupIgnoresDistance(Lower(name), distance, 0);
      Err(UnknownOperator(name))
    case Some(kind) => Ok(Op(kind, name, [], ""))
  }

  /** "#NEAR/3" and "#near/3" build NEAR with distance 3, named without "/3". */
  lemma {:induction false} CreateOperatorDistance(name: string, n: nat)
    requires '/' !in name && n <= MaxInt32
    requires Lower(name) == "#near"
    ensures CreateOperator(name + "/" + NatToString(n)) == Ok(Op(Near(n), name, [], ""))
  {
    var text := name + "/" + NatToString(n);
    assert text[|name|] == '/';
    assert forall j :: 0 <= j < |name| ==> text[j] == name[j];
    assert IndexOf(text, '/') == |name|;
    assert text[|name| + 1..] == NatToString(n);
    assert text[..|name|] == name;
    ParseIntRoundTrip(n);
  }

  /**
   * A query with nothing to trim whose operator text, before its first
   * '(', is rejected fails to parse.
   */
  lemma OperatorRejectedParse(query: string, tokenize: string -> seq<string>)
    requires query != [] && !IsTrimmable(query[0]) && !IsTrimmable(query[|query| - 1])
    requires 0 <= IndexOf(query, '(') && CreateOperator(Trim(query[..IndexOf(query, '(')])).Err?
    ensures Parse(query, tokenize).Err?
  {
    TrimIdentity(query);
  }

  /** A name that is no operator's spelling in any letter case is rejected. */
  lemma UnknownOperatorRejected(text: string)
    requires '/' !in text
    requires forall k: OpKind :: Spelling(k) != Lower(text) || k.Score?
    ensures CreateOperator(text) == Err(UnknownOperator(text))
  {
  }

  // ----------------------------------------------------------- createTerms

  /** The fields a term may name. */
  predicate IsField(f: string)
  {
    f == "url" || f == "keywords" || f == "title" || f == "body" || f == "inlink"
  }

  /** Split "term.field" at the first '.'; no '.' means field "body". */
  function SplitField(token: string): (tf: (string, string))
    ensures '.' !in token ==> tf == (token, "body")
    ensures '.' in token ==>
              |tf.0| < |token| && tf.0 == token[..|tf.0|] && token[|tf.0|] == '.' && '.' !in tf.0 &&
              tf.1 == Lower(token[|tf.0| + 1..])
  {
    var d := IndexOf(token, '.');
    if d < 0 then (token, "body")
    else
      assert forall j :: 0 <= j < d ==> token[..d][j] == token[j];
      (token[..d], Lower(token[d + 1..]))
  }

  /**
   * createTerms: one term node per analyzer output of the term part, all
   * with the token's field, or a syntax error naming an unknown field.
   */
  function CreateTerms(token: string, tokenize: string -> seq<string>): (r: Result<seq<Qry>, SyntaxError>)
    ensures r.Err? <==> !IsField(SplitField(token).1)
    ensures r.Err? ==> r.error == UnknownField(token)
    ensures r.Ok? ==> |r.value| == |tokenize(SplitField(token).0)| &&
                      forall j :: 0 <= j < |r.value| ==>
                        r.value[j] == Term(tokenize(SplitField(token).0)[j], SplitField(token).1)
  {
    var (term, field) := SplitField(token);
    if !IsField(field) then Err(UnknownField(token))
    else
      var tokens := tokenize(term);
      Ok(seq(|tokens|, j requires 0 <= j < |tokens| => Term(tokens[j], field)))
  }

  lemma SplitFieldAt(token: string, d: nat)
    requires d < |token| && token[d] == '.'
    requires forall j :: 0 <= j < d ==> token[j] != '.'
    ensures SplitField(token) == (token[..d], Lower(token[d + 1..]))
  {
    assert IndexOf(token, '.') == d;
  }

  /**
   * "term.Field" is searched in field lower(Field) when that is a known
   * field, and is a syntax error naming the whole token otherwise.
   */
  lemma CreateTermsSplitsField(term: string, f: string, tokenize: string -> seq<string>)
    requires '.' !in term
    ensures IsField(Lower(f)) ==>
              var r := CreateTerms(term + "." + f, tokenize);
              r.Ok? && |r.value| == |tokenize(term)| &&
              forall j :: 0 <= j < |r.value| ==> r.value[j] == Term(tokenize(term)[j], Lower(f))
    ensures !IsField(Lower(f)) ==>
              CreateTerms(term + "." + f, tokenize) == Err(UnknownField(term + "." + f))
  {
    var token := term + "." + f;
    assert forall j :: 0 <= j < |term| ==> token[j] == term[j];
    SplitFieldAt(token, |term|);
    assert token[..|term|] == term;
    assert token[|term| + 1..] == f;
  }

  /** "apple.TITLE" is searched in the title field: field names ignore case. */
  lemma CreateTermsTitleExample(tokenize: string -> seq<string>)
    ensures var r := CreateTerms("apple.TITLE", tokenize);
            r.Ok? && |r.value| == |tokenize("apple")| &&
            forall j :: 0 <= j < |r.value| ==> r.value[j] == Term(tokenize("apple")[j], "title")
  {
    assert "apple" + "." + "TITLE" == "apple.TITLE";
    assert Lower("TITLE") == "title";
    CreateTermsSplitsField("apple", "TITLE", tokenize);
  }

  // --------------------------------------------------------- weight tokens

  /** \d+(\.\d+)? */
  predicate IsUnsignedDecimal(s: string)
  {
    var k := IndexOf(s, '.');
    if k < 0 then AllDigits(s) else AllDigits(s[..k]) && AllDigits(s[k + 1..])
  }

  /** The weight pattern -?\d+(\.\d+)? matched against the whole token. */
  predicate IsNumber(s: string)
  {
    if s != [] && s[0] == '-' then IsUnsignedDecimal(s[1..]) else IsUnsignedDecimal(s)
  }

  /** Tokens the weight pattern accepts. */
  lemma NumberAcceptedExamples()
    ensures IsNumber("0.5") && IsNumber("-2") && IsNumber("10")
  {
    IndexOfAt("0.5", '.', 1);
    assert "0.5"[..1] == "0" && "0.5"[2..] == "5";
    assert "-2"[1..] == "2";
  }

  /** Tokens the weight pattern rejects: a word, a dangling dot, a lone sign, two dots. */
  lemma NumberRejectedExamples()
    ensures !IsNumber("a") && !IsNumber("1.") && !IsNumber("-") && !IsNumber("1.2.3")
  {
    IndexOfAt("1.", '.', 1);
    assert "1."[2..] == "";
    assert "-"[1..] == "";
    var t := "1.2.3";
    IndexOfAt(t, '.', 1);
    assert t[2..][1] == '.';
  }

  // ----------------------------------------------------------- parseString

  /**
   * The three checks made before parsing: some '(', as many '(' as ')',
   * and the first '(' balanced by the last character.
   */
  predicate ParensOk(s: string)
  {
    Count(s, '(') != 0 && Count(s, '(') == Count(s, ')') &&
    BalancingIndex(s) == |s| - 1
  }

  /** Where a well-parenthesized query splits into operator and arguments. */
  lemma ParensOkShape(s: string)
    requires ParensOk(s)
    ensures 0 <= IndexOf(s, '(') < |s| - 1 && s[|s| - 1] == ')'
  {
    var b := BalancingIndex(s);
    assert ClosesAt(s, b);
    assert '(' in s by {
      CountIsMultiplicity(s, '(');
    }
  }

  /** The argument text: after the first '(', before the last ')', trimmed. */
  function ArgText(s: string): (body: string)
    requires ParensOk(s)
    ensures |body| < |s|
  {
    ParensOkShape(s);
    var k := IndexOf(s, '(');
    var rest := s[k + 1..];
    assert rest[|rest| - 1] == ')';
    Trim(rest[..LastIndexOf(rest, ')')])
  }

  /** parseString (lines 292-377) as a function of the query text. */
  function Parse(query: string, tokenize: string -> seq<string>): (r: Result<Qry, SyntaxError>)
    ensures !ParensOk(Trim(query)) ==> r == Err(Parentheses)
    ensures r.Ok? ==> r.value.Op? && !r.value.kind.Score? && Lower(r.value.name) == Spelling(r.value.kind)
    decreases |query|, 0
  {
    var s := Trim(query);
    if !ParensOk(s) then Err(Parentheses)
    else
      ParensOkShape(s);
      var tree :- CreateOperator(Trim(s[..IndexOf(s, '(')]));
      ParseArgs(ArgText(s), tree, "", tokenize)
  }

  /** The argument loop (lines 331-374) from the unconsumed text on. */
  function ParseArgs(rest: string, tree: Qry, weights: string, tokenize: string -> seq<string>)
    : (r: Result<Qry, SyntaxError>)
    requires tree.Op?
    ensures r.Ok? ==> r.value.Op? && r.value.kind == tree.kind && r.value.name == tree.name
    ensures r.Ok? ==> |tree.args| <= |r.value.args| && r.value.args[..|tree.args|] == tree.args
    decreases |rest|, 1
  {
    if rest == [] then Ok(tree)
    else if rest[0] == '#' then
      var (popped, remaining) := PopSubquery(rest);
      var sub :- Parse(popped, tokenize);
      var next := AppendAll(tree, weights, [sub]);
      var r := ParseArgsOn(remaining, next, weights, tokenize, |rest|);
      if r.Ok? then PrefixTransitive(tree.args, next.args, r.value.args); r else r
    else
      var (token, remaining) := PopTerm(rest);
      if IsNumber(token) then
        ParseArgsOn(remaining, tree, weights + token + " ", tokenize, |rest|)
      else
        var terms :- CreateTerms(token, tokenize);
        var next := AppendAll(tree, weights, terms);
        var r := ParseArgsOn(remaining, next, weights, tokenize, |rest|);
        if r.Ok? then PrefixTransitive(tree.args, next.args, r.value.args); r else r
  }

  /** Continue the loop on the trimmed remainder of a popped argument. */
  function ParseArgsOn(remaining: string, tree: Qry, weights: string,
                       tokenize: string -> seq<string>, bound: nat): (r: Result<Qry, SyntaxError>)
    requires tree.Op? && |remaining| < bound
    ensures r.Ok? ==> r.value.Op? && r.value.kind == tree.kind && r.value.name == tree.name
    ensures r.Ok? ==> |tree.args| <= |r.value.args| && r.value.args[..|tree.args|] == tree.args
    decreases bound, 0
  {
    var r := ParseArgs(Trim(remaining), tree, weights, tokenize);
    if r.Ok? then
      assert r.value.args[..|tree.args|] == tree.args;
      r
    else r
  }

  /**
   * The parse loop.  Numeric tokens go to the pending weight string; other
   * tokens and subqueries are appended, and before each appended argument
   * a weighted operator receives the weights seen so far.
   */
  method ParseString(query: string, tokenize: string -> seq<string>) returns (r: Result<Qry, SyntaxError>)
    ensures r == Parse(query, tokenize)
    decreases |query|
  {
    var queryString := Trim(query);
    var open := CountChars(queryString, '(');
    var close := CountChars(queryString, ')');
    var balancing := IndexOfBalencingParen(queryString);
    if open == 0 || open != close || balancing != |queryString| - 1 {
      return Err(Parentheses);
    }
    ParensOkShape(queryString);
    var k := IndexOf(queryString, '(');
    var created := CreateOperator(Trim(queryString[..k]));
    if created.Err? {
      return Err(created.error);
    }
    var queryTree := created.value;
    var full := ArgText(queryString);
    queryString := full;
    var weights := "";
    assert Parse(query, tokenize) == ParseArgs(full, created.value, "", tokenize);
    while |queryString| > 0
      invariant queryTree.Op?
      invariant ParseArgs(queryString, queryTree, weights, tokenize) ==
                ParseArgs(full, created.value, "", tokenize)
      invariant |queryString| < |query|
      decreases |queryString|
    {
      var popped, remaining;
      var qargs: seq<Qry> := [];
      if queryString[0] == '#' {
        popped, remaining := PopSubquery(queryString).0, PopSubquery(queryString).1;
        var sub := ParseString(popped, tokenize);
        if sub.Err? {
          return Err(sub.error);
        }
        qargs := [sub.value];
      } else {
        popped, remaining := PopTerm(queryString).0, PopTerm(queryString).1;
        if IsNumber(popped) {
          weights := weights + popped + " ";
        } else {
          var terms := CreateTerms(popped, tokenize);
          if terms.Err? {
            return Err(terms.error);
          }
          qargs := terms.value;
        }
      }
      queryString := Trim(remaining);
      ghost var before := queryTree;
      for i := 0 to |qargs|
        invariant queryTree.Op?
        invariant AppendAll(queryTree, weights, qargs[i..]) ==
                  AppendAll(before, weights, qargs)
      {
        if IsWeighted(queryTree.kind) {
          queryTree := queryTree.(weights := weights);
        }
        queryTree := AppendArg(queryTree, qargs[i]);
      }
    }
    r := Ok(queryTree);
  }

  // ------------------------------------------------ the popSubquery finding

  /** A prefix of a string without a balancing ')' has none either. */
  lemma {:induction false} NoBalancingInPrefix(s: string, n: nat)
    requires n <= |s| && BalancingIndex(s) == -1
    ensures BalancingIndex(s[..n]) == -1
  {
    forall j | 0 <= j < n
      ensures !ClosesAt(s[..n], j)
    {
      assert s[..n][..j + 1] == s[..j + 1];
      assert !ClosesAt(s, j);
    }
  }

  /**
   * With the corrected popSubquery, a subquery without a balancing ')'
   * is popped whole and its own parse reports the parenthesis error.
   */
  lemma UnbalancedSubqueryRejected(rest: string, tree: Qry, weights: string, tokenize: string -> seq<string>)
    requires tree.Op? && rest != [] && rest[0] == '#'
    requires BalancingIndex(rest) == -1
    ensures ParseArgs(rest, tree, weights, tokenize) == Err(Parentheses)
  {
    assert PopSubquery(rest) == (rest, "");
    assert TrimLeft(rest) == rest;
    var t := Trim(rest);
    NoBalancingInPrefix(rest, |t|);
    assert t == rest[..|t|];
    assert t != [];
    assert !ParensOk(t);
  }

  lemma FindingQueryParens()
    ensures ParensOk("#and(#or a)")
  {
    var s := "#and(#or a)";
    assert s[..0] == [];
    DepthStep(s, 0); DepthStep(s, 1); DepthStep(s, 2); DepthStep(s, 3); DepthStep(s, 4);
    DepthStep(s, 5); DepthStep(s, 6); DepthStep(s, 7); DepthStep(s, 8); DepthStep(s, 9);
    DepthStep(s, 10);
    assert s[..11] == s;
    assert ClosesAt(s, 10);
    assert forall j :: 0 <= j < 10 ==> s[j] != ')';
    FindingQueryCount('(');
    FindingQueryCount(')');
  }

  lemma FindingQueryCount(c: char)
    requires c == '(' || c == ')'
    ensures Count("#and(#or a)", c) == 1
  {
    var s := "#and(#or a)";
    assert s[..0] == [];
    CountStep(s, c, 0); CountStep(s, c, 1); CountStep(s, c, 2); CountStep(s, c, 3);
    CountStep(s, c, 4); CountStep(s, c, 5); CountStep(s, c, 6); CountStep(s, c, 7);
    CountStep(s, c, 8); CountStep(s, c, 9); CountStep(s, c, 10);
    assert s[..11] == s;
  }

  /** For a query op(body) with no '(' in op, the argument text is body, trimmed. */
  lemma ArgTextOfWrapped(op: string, body: string)
    requires '(' !in op && ParensOk(op + ("(" + (body + ")")))
    ensures ArgText(op + ("(" + (body + ")"))) == Trim(body)
  {
    WrappedParts(op, body);
  }

  /** Where op(body) splits: its first '(' follows op, and its last character closes body. */
  lemma WrappedParts(op: string, body: string)
    requires '(' !in op
    ensures IndexOf(op + ("(" + (body + ")")), '(') == |op|
    ensures (op + ("(" + (body + ")")))[|op| + 1..] == body + ")"
    ensures LastIndexOf(body + ")", ')') == |body| && (body + ")")[..|body|] == body
  {
    WrappedOpen(op, "(" + (body + ")"));
    WrappedBody(op, body + ")");
    WrappedClose(body);
  }

  /** op(body) keeps op's first character, ends in ')', and its operator text is op. */
  lemma WrappedEnds(op: string, body: string)
    requires '(' !in op && op != []
    ensures var text := op + ("(" + (body + ")"));
              text[0] == op[0] && text[|text| - 1] == ')' &&
              IndexOf(text, '(') == |op| && text[..|op|] == op
  {
    WrappedOpen(op, "(" + (body + ")"));
  }

  /**
   * A query op(body) whose operator text op has nothing to trim and names
   * no operator does not parse, whatever body is.
   */
  lemma OperatorRejectedWrapped(op: string, body: string, tokenize: string -> seq<string>)
    requires '(' !in op && op != [] && !IsTrimmable(op[0]) && !IsTrimmable(op[|op| - 1])
    requires CreateOperator(op).Err?
    ensures Parse(op + ("(" + (body + ")")), tokenize).Err?
  {
    WrappedEnds(op, body);
    TrimIdentity(op);
    OperatorRejectedParse(op + ("(" + (body + ")")), tokenize);
  }

  lemma WrappedOpen(op: string, u: string)
    requires '(' !in op && u != [] && u[0] == '('
    ensures IndexOf(op + u, '(') == |op|
  {
    IndexOfAt(op + u, '(', |op|);
  }

  lemma WrappedBody(op: string, t: string)
    ensures (op + ("(" + t))[|op| + 1..] == t
  {
    var u := "(" + t;
    assert (op + u)[|op|..] == u;
    assert u[1..] == t;
  }

  lemma WrappedClose(body: string)
    ensures LastIndexOf(body + ")", ')') == |body| && (body + ")")[..|body|] == body
  {
  }

  /** The operator text and the argument text of "#and(#or a)". */
  lemma FindingQueryShape()
    ensures ParensOk("#and(#or a)")
    ensures IndexOf("#and(#or a)", '(') == 4
    ensures "#and(#or a)"[..4] == "#and"
    ensures ArgText("#and(#or a)") == "#or a"
  {
    FindingQueryParens();
    FindingQueryOpen();
    FindingQueryArgs();
  }

  lemma FindingQueryOpen()
    ensures IndexOf("#and(#or a)", '(') == 4 && "#and(#or a)"[..4] == "#and"
  {
    var s := "#and(#or a)";
    assert s[..4] == "#and";
    IndexOfAt(s, '(', 4);
  }

  lemma FindingQueryArgs()
    requires ParensOk("#and(#or a)")
    ensures ArgText("#and(#or a)") == "#or a"
  {
    assert "#and(#or a)" == "#and" + ("(" + ("#or a" + ")"));
    ArgTextOfWrapped("#and", "#or a");
    TrimIdentity("#or a");
  }

  /**
   * The source's popSubquery throws on the argument text of "#and(#or a)",
   * a query that passes the parenthesis check, instead of the syntax error
   * its fallback intends.
   */
  lemma PopSubqueryAsWrittenThrows()
    ensures ParensOk("#and(#or a)") && ArgText("#and(#or a)") == "#or a"
    ensures PopSubqueryAsWritten("#or a").None?
  {
    FindingQueryShape();
    BalancingUnmatchedExamples();
  }

  lemma FindingQueryTrimmed()
    ensures Trim("#and(#or a)") == "#and(#or a)" && Trim("#and") == "#and"
  {
    assert TrimLeft("#and(#or a)") == "#and(#or a)";
    assert TrimLeft("#and") == "#and";
  }

  lemma CreateAndOperator()
    ensures CreateOperator("#and") == Ok(Op(And, "#and", [], ""))
  {
    assert Lower("#and") == "#and";
    assert '/' !in "#and";
  }

  /** The corrected parser reports the same query as a parenthesis error. */
  lemma FindingQueryRejected(tokenize: string -> seq<string>)
    ensures Parse("#and(#or a)", tokenize) == Err(Parentheses)
  {
    FindingQueryTrimmed();
    FindingQueryShape();
    BalancingUnmatchedExamples();
    CreateAndOperator();
    UnbalancedSubqueryRejected("#or a", Op(And, "#and", [], ""), "", tokenize);
  }

  // --------------------------------------------------------------- weights

  /** A token of the unsigned decimal pattern is made of digits and dots only. */
  lemma UnsignedDecimalChars(u: string)
    requires IsUnsignedDecimal(u)
    ensures u != [] && forall i :: 0 <= i < |u| ==> IsDigit(u[i]) || u[i] == '.'
  {
    var k := IndexOf(u, '.');
    if k >= 0 {
      forall i | 0 <= i < |u| ensures IsDigit(u[i]) || u[i] == '.' {
        if i < k {
          assert u[i] == u[..k][i];
        } else if i > k {
          assert u[i] == u[k + 1..][i - k - 1];
        }
      }
    }
  }

  lemma NumberChars(t: string)
    requires IsNumber(t)
    ensures t != [] && t[0] != '#' && NoSpace(t)
  {
    if t != [] && t[0] == '-' {
      var u := t[1..];
      UnsignedDecimalChars(u);
      forall i | 0 <= i < |t| ensures !IsSpace(t[i]) {
        if i > 0 {
          assert t[i] == u[i - 1];
        }
      }
    } else {
      UnsignedDecimalChars(t);
    }
  }

  /**
   * Under any operator, a token matching the weight pattern is appended,
   * with one blank, to the pending weight string and adds no argument.
   */
  lemma NumberTokenGoesToWeights(t: string, rest: string, tree: Qry, weights: string,
                                 tokenize: string -> seq<string>)
    requires tree.Op? && IsNumber(t)
    requires rest == [] || !IsSpace(rest[0])
    ensures ParseArgs(t + " " + rest, tree, weights, tokenize) ==
            ParseArgs(Trim(rest), tree, weights + t + " ", tokenize)
  {
    NumberChars(t);
    PopTermRoundTrip(t, rest);
    assert (t + " " + rest)[0] == t[0];
  }

  /**
   * A term token appended to #wsum or #wand sets the operator's weight
   * string to the weights seen so far, before its arguments are added.
   */
  lemma WeightsSetBeforeArgument(t: string, rest: string, tree: Qry, weights: string,
                                 tokenize: string -> seq<string>)
    requires tree.Op? && IsWeighted(tree.kind)
    requires NoSpace(t) && t != [] && t[0] != '#' && !IsNumber(t)
    requires rest == [] || !IsSpace(rest[0])
    requires CreateTerms(t, tokenize).Ok? && CreateTerms(t, tokenize).value != []
    ensures var next := AppendAll(tree, weights, CreateTerms(t, tokenize).value);
            next.weights == weights &&
            ParseArgs(t + " " + rest, tree, weights, tokenize) == ParseArgs(Trim(rest), next, weights, tokenize)
  {
    PopTermRoundTrip(t, rest);
    assert (t + " " + rest)[0] == t[0];
  }

  /**
   * A subquery appended to #wsum or #wand likewise sets the operator's
   * weight string to the weights seen so far, before it is added.
   */
  lemma WeightsSetBeforeSubquery(rest: string, tree: Qry, weights: string,
                                 tokenize: string -> seq<string>)
    requires tree.Op? && IsWeighted(tree.kind)
    requires rest != [] && rest[0] == '#'
    requires Parse(PopSubquery(rest).0, tokenize).Ok?
    ensures var next := AppendAll(tree, weights, [Parse(PopSubquery(rest).0, tokenize).value]);
            next.weights == weights && |next.args| == |tree.args| + 1 &&
            ParseArgs(rest, tree, weights, tokenize) ==
              ParseArgsOn(PopSubquery(rest).1, next, weights, tokenize, |rest|)
  {
  }

  // ------------------------------------------------------------ optimizer

  /** The term leaves of a query, left to right. */
  function Leaves(q: Qry): seq<Qry>
  {
    match q
    case Term(_, _) => [q]
    case Op(_, _, args, _) => LeavesList(args)
  }

  function LeavesList(args: seq<Qry>): seq<Qry>
  {
    if args == [] then [] else Leaves(args[0]) + LeavesList(args[1..])
  }

  /**
   * The shape optimization leaves: no operator without arguments, and only
   * #score with a single argument.
   */
  predicate Optimal(q: Qry)
  {
    match q
    case Term(_, _) => true
    case Op(kind, _, args, _) =>
      |args| >= (if kind.Score? then 1 else 2) && forall i :: 0 <= i < |args| ==> Optimal(args[i])
  }

  /**
   * optimizeQuery as a function: None stands for the null returned for an
   * operator left without arguments.
   */
  function Optimized(q: Qry): Option<Qry>
  {
    match q
    case Term(_, _) => Some(q)
    case Op(kind, name, args, weights) =>
      var kept := Kept(args);
      if kept == [] then None
      else if |kept| == 1 && !kind.Score? then Some(kept[0])
      else Some(Op(kind, name, kept, weights))
  }

  /** The optimized arguments, those optimized to null dropped. */
  function Kept(args: seq<Qry>): seq<Qry>
  {
    if args == [] then []
    else (match Optimized(args[0]) case None => [] case Some(a) => [a]) + Kept(args[1..])
  }

  /**
   * optimizeQuery: arguments are optimized from the last to the first, a
   * null one removed and a changed one replaced in place; then an operator
   * without arguments becomes null and a non-#score operator with one
   * argument is replaced by it.
   */
  method OptimizeQuery(q: Qry) returns (r: Option<Qry>)
    ensures r == Optimized(q)
  {
    if q.Term? {
      return Some(q);
    }
    var args := q.args;
    var i := |q.args|;
    while i > 0
      invariant 0 <= i <= |q.args|
      invariant args == q.args[..i] + Kept(q.args[i..])
    {
      i := i - 1;
      assert q.args[i..][1..] == q.args[i + 1..];
      var after := OptimizeQuery(q.args[i]);
      if after.None? {
        args := args[..i] + args[i + 1..];
        assert args == q.args[..i] + Kept(q.args[i..]);
      } else if after.value != q.args[i] {
        args := args[i := after.value];
        assert args == q.args[..i] + Kept(q.args[i..]);
      } else {
        assert args == q.args[..i] + Kept(q.args[i..]);
      }
    }
    assert q.args[0..] == q.args && q.args[..0] == [];
    assert args == Kept(q.args);
    if |args| == 0 {
      return None;
    }
    if |args| == 1 && !q.kind.Score? {
      return Some(args[0]);
    }
    return Some(q.(args := args));
  }

  lemma {:induction false} LeavesListAppend(a: seq<Qry>, b: seq<Qry>)
    ensures LeavesList(a + b) == LeavesList(a) + LeavesList(b)
    decreases |a|
  {
    if a == [] {
      assert a + b == b;
    } else {
      assert (a + b)[0] == a[0] && (a + b)[1..] == a[1..] + b;
      LeavesListAppend(a[1..], b);
    }
  }

  /** Optimization keeps the term leaves in order, and drops only leafless operators. */
  lemma {:induction false} OptimizedLeaves(q: Qry)
    ensures Optimized(q).None? ==> Leaves(q) == []
    ensures Optimized(q).Some? ==> Leaves(Optimized(q).value) == Leaves(q)
  {
    match q
    case Term(_, _) =>
    case Op(kind, name, args, weights) =>
      KeptLeaves(args);
      var kept := Kept(args);
      if kept != [] && |kept| == 1 && !kind.Score? {
        assert kept == [kept[0]];
        assert LeavesList(kept) == Leaves(kept[0]) + LeavesList([]);
      }
  }

  lemma {:induction false} KeptLeaves(args: seq<Qry>)
    ensures LeavesList(Kept(args)) == LeavesList(args)
  {
    if args != [] {
      OptimizedLeaves(args[0]);
      KeptLeaves(args[1..]);
      var head := match Optimized(args[0]) case None => [] case Some(a) => [a];
      LeavesListAppend(head, Kept(args[1..]));
      if head != [] {
        assert LeavesList(head) == Leaves(head[0]) + LeavesList([]);
      }
    }
  }

  /** What optimization returns has the optimal shape. */
  lemma {:induction false} OptimizedIsOptimal(q: Qry)
    ensures Optimized(q).Some? ==> Optimal(Optimized(q).value)
  {
    match q
    case Term(_, _) =>
    case Op(kind, name, args, weights) =>
      KeptOptimal(args);
  }

  lemma {:induction false} KeptOptimal(args: seq<Qry>)
    ensures forall i :: 0 <= i < |Kept(args)| ==> Optimal(Kept(args)[i])
  {
    if args != [] {
      OptimizedIsOptimal(args[0]);
      KeptOptimal(args[1..]);
    }
  }

  /** An optimal query is left unchanged: optimizing twice is optimizing once. */
  lemma {:induction false} OptimalIsFixpoint(q: Qry)
    requires Optimal(q)
    ensures Optimized(q) == Some(q)
  {
    match q
    case Term(_, _) =>
    case Op(kind, name, args, weights) =>
      KeptFixpoint(args);
  }

  lemma {:induction false} KeptFixpoint(args: seq<Qry>)
    requires forall i :: 0 <= i < |args| ==> Optimal(args[i])
    ensures Kept(args) == args
  {
    if args != [] {
      OptimalIsFixpoint(args[0]);
      KeptFixpoint(args[1..]);
      assert [args[0]] + args[1..] == args;
    }
  }

  /** An optimal query has at least one term leaf. */
  lemma {:induction false} OptimalHasLeaves(q: Qry)
    requires Optimal(q)
    ensures Leaves(q) != []
  {
    match q
    case Term(_, _) =>
    case Op(kind, name, args, weights) =>
      OptimalHasLeaves(args[0]);
      assert [args[0]] + args[1..] == args;
      LeavesListAppend([args[0]], args[1..]);
      assert LeavesList([args[0]]) == Leaves(args[0]) + LeavesList([]);
  }

  /** Optimization yields null exactly when the query has no term at all. */
  lemma OptimizedNullIffNoTerms(q: Qry)
    ensures Optimized(q).None? <==> Leaves(q) == []
    ensures Optimized(q).Some? ==> Optimized(Optimized(q).value) == Optimized(q)
  {
    OptimizedLeaves(q);
    OptimizedIsOptimal(q);
    if Optimized(q).Some? {
      OptimalHasLeaves(Optimized(q).value);
      OptimalIsFixpoint(Optimized(q).value);
    }
  }

  /** #near/1(of the) after stopword removal: an #and over it disappears. */
  lemma OptimizeStopwordsExample()
    ensures Optimized(Op(And, "#and", [Op(Near(1), "#near", [], "")], "")) == None
  {
    assert Kept([]) == [];
    var near := Op(Near(1), "#near", [], "");
    assert Optimized(near) == None;
    assert Kept([near]) == [] + Kept([near][1..]);
  }

  /** #and(a): the single #score argument replaces the #and. */
  lemma OptimizeSingleArgumentExample()
    ensures var score := Op(Score, "#score", [Term("a", "body")], "");
            Optimized(Op(And, "#and", [score], "")) == Some(score)
  {
    var score := Op(Score, "#score", [Term("a", "body")], "");
    assert Optimal(score);
    OptimalIsFixpoint(score);
    assert [score][1..] == [];
    assert Kept([score]) == [score] + Kept([]);
  }

  /** getQuery: parse, then optimize. */
  method GetQuery(query: string, tokenize: string -> seq<string>) returns (r: Result<Option<Qry>, SyntaxError>)
    ensures r.Err? <==> Parse(query, tokenize).Err?
    ensures r.Err? ==> r.error == Parse(query, tokenize).error
    ensures r.Ok? ==> r.value == Optimized(Parse(query, tokenize).value)
    ensures r.Ok? && r.value.Some? ==> Optimal(r.value.value)
  {
    var parsed := ParseString(query, tokenize);
    if parsed.Err? {
      return Err(parsed.error);
    }
    var q := OptimizeQuery(parsed.value);
    OptimizedIsOptimal(parsed.value);
    return Ok(q);
  }
}
