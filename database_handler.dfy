/**
 * The database handler of the chat API (app/api/chat/database-handler.js):
 * `executeQuery` rewrites `:name` placeholders into positional `$k` markers and
 * binds the parameter object's values in key order; `queryDatabase` refuses
 * any statement that mentions a data-changing keyword before it reaches the
 * database. The database and `JSON.stringify` are oracle parameters.
 */
module DatabaseHandler {
  import opened Common

  // ---------------------------------------------------------------------------
  // Scanning for placeholders: the regular expression /:([\w]+)/g
  // ---------------------------------------------------------------------------

  /** `\w` of a JavaScript regular expression without the `u` flag. */
  predicate IsWordChar(c: char) {
    'a' <= c <= 'z' || 'A' <= c <= 'Z' || '0' <= c <= '9' || c == '_'
  }

  /** A piece of the query text: a character copied as it is, or a `:name` placeholder. */
  datatype Token = Lit(c: char) | Param(name: string)

  /** The length of the longest run of word characters that starts the text (the greedy `[\w]+`). */
  function WordLength(s: string): (n: nat)
    ensures n <= |s|
    ensures forall i :: 0 <= i < n ==> IsWordChar(s[i])
    ensures n < |s| ==> !IsWordChar(s[n])
  {
    if s == [] || !IsWordChar(s[0]) then 0 else 1 + WordLength(s[1..])
  }

  /** Any run of word characters that cannot be extended is the one `WordLength` finds. */
  lemma {:induction false} WordLengthIs(s: string, m: nat)
    requires m <= |s| && (forall i :: 0 <= i < m ==> IsWordChar(s[i])) && (m < |s| ==> !IsWordChar(s[m]))
    ensures WordLength(s) == m
  {
    if m > 0 {
      WordLengthIs(s[1..], m - 1);
    }
  }

  function Spelling(t: Token): string {
    match t
    case Lit(c) => [c]
    case Param(name) => [':'] + name
  }

  function Untokenize(ts: seq<Token>): string {
    if ts == [] then "" else Spelling(ts[0]) + Untokenize(ts[1..])
  }

  predicate IsIdentifier(name: string) {
    |name| > 0 && forall i :: 0 <= i < |name| ==> IsWordChar(name[i])
  }

  /** The matches of /:([\w]+)/g from left to right, with the text between them as single characters. */
  function Tokenize(s: string): seq<Token>
    decreases |s|
  {
    if s == [] then []
    else if s[0] == ':' && |s| > 1 && IsWordChar(s[1]) then
      var n := WordLength(s[1..]);
      [Param(s[1..1 + n])] + Tokenize(s[1 + n..])
    else [Lit(s[0])] + Tokenize(s[1..])
  }

  /** A literal first token is the first character of the text. */
  lemma TokenizeHead(s: string)
    requires s != []
    ensures Tokenize(s) != []
    ensures Tokenize(s)[0].Lit? ==> Tokenize(s)[0].c == s[0]
  {
  }

  /** Splicing the tokens' spellings back together gives the text: nothing is lost or added. */
  lemma {:induction false} TokenizeRoundTrip(s: string)
    ensures Untokenize(Tokenize(s)) == s
    decreases |s|
  {
    if s != [] {
      if s[0] == ':' && |s| > 1 && IsWordChar(s[1]) {
        TokenizeRoundTrip(s[1 + WordLength(s[1..])..]);
        RoundTripAtPlaceholder(s);
      } else {
        TokenizeRoundTrip(s[1..]);
        RoundTripAtLiteral(s);
      }
    }
  }

  lemma RoundTripAtPlaceholder(s: string)
    requires s != [] && s[0] == ':' && |s| > 1 && IsWordChar(s[1])
    requires var rest := s[1 + WordLength(s[1..])..]; Untokenize(Tokenize(rest)) == rest
    ensures Untokenize(Tokenize(s)) == s
  {
    var n := WordLength(s[1..]);
    var rest := s[1 + n..];
    var t := Param(s[1..1 + n]);
    UnfoldAtPlaceholder(s);
    SpellFront(Tokenize(s), t, Tokenize(rest), rest);
    PlaceholderSplit(s, n);
  }

  /** A colon, the name after it and the rest of the text make up the text. */
  lemma PlaceholderSplit(s: string, n: nat)
    requires s != [] && s[0] == ':' && 1 + n <= |s|
    ensures Spelling(Param(s[1..1 + n])) + s[1 + n..] == s
  {
    assert Spelling(Param(s[1..1 + n])) == s[..1 + n];
    assert s[..1 + n] + s[1 + n..] == s;
  }

  /** One unfolding of `Tokenize` at a placeholder. */
  lemma UnfoldAtPlaceholder(s: string)
    requires s != [] && s[0] == ':' && |s| > 1 && IsWordChar(s[1])
    ensures var n := WordLength(s[1..]);
      Tokenize(s) == [Param(s[1..1 + n])] + Tokenize(s[1 + n..])
  {
  }

  lemma RoundTripAtLiteral(s: string)
    requires s != [] && !(s[0] == ':' && |s| > 1 && IsWordChar(s[1]))
    requires Untokenize(Tokenize(s[1..])) == s[1..]
    ensures Untokenize(Tokenize(s)) == s
  {
    var t := Lit(s[0]);
    assert Spelling(t) + s[1..] == s;
    SpellFront(Tokenize(s), t, Tokenize(s[1..]), s[1..]);
  }

  /** Tokens that start with `t` spell `t` followed by the spelling of the others. */
  lemma SpellFront(ts: seq<Token>, t: Token, others: seq<Token>, text: string)
    requires ts == [t] + others && Untokenize(others) == text
    ensures Untokenize(ts) == Spelling(t) + text
  {
    assert ts[1..] == others;
  }

  /**
   * The tokens are the regular expression's matches: every placeholder is a
   * non-empty run of word characters, no placeholder is followed by a word
   * character it could have taken, and no colon left as text is followed by a
   * word character.
   */
  lemma {:induction false} TokenizeMatches(s: string)
    ensures var ts := Tokenize(s);
      && (forall i :: 0 <= i < |ts| && ts[i].Param? ==> IsIdentifier(ts[i].name))
      && (forall i :: 0 <= i < |ts| - 1 && ts[i].Param? && ts[i + 1].Lit? ==> !IsWordChar(ts[i + 1].c))
      && (forall i :: 0 <= i < |ts| - 1 && ts[i] == Lit(':') && ts[i + 1].Lit? ==> !IsWordChar(ts[i + 1].c))
    decreases |s|
  {
    if s != [] {
      var ts := Tokenize(s);
      if s[0] == ':' && |s| > 1 && IsWordChar(s[1]) {
        var n := WordLength(s[1..]);
        var rest := s[1 + n..];
        TokenizeMatches(rest);
        if rest != [] { TokenizeHead(rest); }
        assert ts == [Param(s[1..1 + n])] + Tokenize(rest);
        assert forall i :: 1 <= i < |ts| ==> ts[i] == Tokenize(rest)[i - 1];
        assert IsIdentifier(ts[0].name);
      } else {
        var rest := s[1..];
        TokenizeMatches(rest);
        if rest != [] { TokenizeHead(rest); }
        assert ts == [Lit(s[0])] + Tokenize(rest);
        assert forall i :: 1 <= i < |ts| ==> ts[i] == Tokenize(rest)[i - 1];
      }
    }
  }

  // ---------------------------------------------------------------------------
  // Positional markers
  // ---------------------------------------------------------------------------

  /** The positional placeholder `$k` the handler writes for marker number `k`. */
  function Marker(k: nat): string {
    "$" + NatToDecimal(k)
  }

  lemma MarkerInjective(a: nat, b: nat)
    requires Marker(a) == Marker(b)
    ensures a == b
  {
    assert NatToDecimal(a) == Marker(a)[1..];
    assert NatToDecimal(b) == Marker(b)[1..];
    DecimalInjective(a, b);
  }

  /**
   * The state of the replace callback: `paramMap` (identifier to marker number),
   * `paramCount` (the next number to hand out) and the text produced so far.
   */
  datatype Rewriting = Rewriting(paramMap: map<string, nat>, paramCount: nat, processed: string)

  const Start := Rewriting(map[], 1, "")

  /** One callback or one copied character; the `!paramMap[name]` test holds exactly for unseen names. */
  function RewriteStep(st: Rewriting, t: Token): Rewriting {
    match t
    case Lit(c) => st.(processed := st.processed + [c])
    case Param(name) =>
      if name in st.paramMap then st.(processed := st.processed + Marker(st.paramMap[name]))
      else Rewriting(st.paramMap[name := st.paramCount], st.paramCount + 1, st.processed + Marker(st.paramCount))
  }

  /** The rewriting state after the tokens in order, from `paramCount = 1` and an empty map. */
  function RewriteTokens(ts: seq<Token>): Rewriting {
    if ts == [] then Start else RewriteStep(RewriteTokens(ts[..|ts| - 1]), ts[|ts| - 1])
  }

  function RewriteQuery(queryText: string): Rewriting {
    RewriteTokens(Tokenize(queryText))
  }

  /**
   * The `queryText.replace(/:([\w]+)/g, …)` of `executeQuery`, scanning the text
   * and updating `paramMap` and `paramCount` as it goes.
   */
  method ProcessQuery(queryText: string) returns (processedQuery: string, paramMap: map<string, nat>, paramCount: nat)
    ensures Rewriting(paramMap, paramCount, processedQuery) == RewriteQuery(queryText)
  {
    paramCount := 1;
    paramMap := map[];
    processedQuery := "";
    ghost var done: seq<Token> := [];
    var i := 0;
    while i < |queryText|
      invariant 0 <= i <= |queryText|
      invariant Tokenize(queryText) == done + Tokenize(queryText[i..])
      invariant RewriteTokens(done) == Rewriting(paramMap, paramCount, processedQuery)
      decreases |queryText| - i
    {
      if queryText[i] == ':' && i + 1 < |queryText| && IsWordChar(queryText[i + 1]) {
        var j := ScanWord(queryText, i + 1);
        var paramName := queryText[i + 1..j];
        TokenizeAtPlaceholder(queryText, i, j);
        Advance(Tokenize(queryText), done, Tokenize(queryText[i..]), Param(paramName), Tokenize(queryText[j..]));
        RewriteTokensSnoc(done, Param(paramName));
        if paramName !in paramMap {
          paramMap := paramMap[paramName := paramCount];
          paramCount := paramCount + 1;
        }
        processedQuery := processedQuery + Marker(paramMap[paramName]);
        done := done + [Param(paramName)];
        i := j;
      } else {
        TokenizeAtLiteral(queryText, i);
        Advance(Tokenize(queryText), done, Tokenize(queryText[i..]), Lit(queryText[i]), Tokenize(queryText[i + 1..]));
        RewriteTokensSnoc(done, Lit(queryText[i]));
        processedQuery := processedQuery + [queryText[i]];
        done := done + [Lit(queryText[i])];
        i := i + 1;
      }
    }
    assert done == Tokenize(queryText);
  }

  /** The end of the run of word characters that starts at `from`. */
  method ScanWord(s: string, from: nat) returns (j: nat)
    requires from <= |s|
    ensures from <= j <= |s|
    ensures forall k :: from <= k < j ==> IsWordChar(s[k])
    ensures j < |s| ==> !IsWordChar(s[j])
  {
    j := from;
    while j < |s| && IsWordChar(s[j])
      invariant from <= j <= |s|
      invariant forall k :: from <= k < j ==> IsWordChar(s[k])
    {
      j := j + 1;
    }
  }

  /** Taking one more token `t` off the front of the unscanned tokens `rest`. */
  lemma Advance(all: seq<Token>, done: seq<Token>, rest: seq<Token>, t: Token, later: seq<Token>)
    requires all == done + rest && rest == [t] + later
    ensures all == (done + [t]) + later
  {
    assert done + ([t] + later) == (done + [t]) + later;
  }

  /** The scan at a colon followed by word characters up to `j` takes them as one placeholder. */
  lemma TokenizeAtPlaceholder(s: string, i: nat, j: nat)
    requires i + 1 < j <= |s| && s[i] == ':'
    requires forall k :: i + 1 <= k < j ==> IsWordChar(s[k])
    requires j < |s| ==> !IsWordChar(s[j])
    ensures Tokenize(s[i..]) == [Param(s[i + 1..j])] + Tokenize(s[j..])
  {
    var rest := s[i..];
    assert rest[1..] == s[i + 1..];
    WordLengthIs(rest[1..], j - (i + 1));
    assert rest[1 + (j - (i + 1))..] == s[j..];
    assert rest[1..1 + (j - (i + 1))] == s[i + 1..j];
  }

  /** Anywhere else the scan copies one character. */
  lemma TokenizeAtLiteral(s: string, i: nat)
    requires i < |s| && !(s[i] == ':' && i + 1 < |s| && IsWordChar(s[i + 1]))
    ensures Tokenize(s[i..]) == [Lit(s[i])] + Tokenize(s[i + 1..])
  {
    assert s[i..][1..] == s[i + 1..];
  }

  lemma RewriteTokensSnoc(ts: seq<Token>, t: Token)
    ensures RewriteTokens(ts + [t]) == RewriteStep(RewriteTokens(ts), t)
  {
    assert (ts + [t])[..|ts|] == ts;
  }

  // ---------------------------------------------------------------------------
  // What the rewriting means: first-occurrence numbering and substitution
  // ---------------------------------------------------------------------------

  /** The placeholder identifiers of the token sequence, in order, repetitions included. */
  function Names(ts: seq<Token>): seq<string> {
    if ts == [] then []
    else Names(ts[..|ts| - 1]) + (if ts[|ts| - 1].Param? then [ts[|ts| - 1].name] else [])
  }

  /** The distinct elements of `xs` in the order of their first occurrence. */
  function FirstOccurrences(xs: seq<string>): (d: seq<string>)
    ensures forall x :: x in d <==> x in xs
    ensures forall i, j :: 0 <= i < j < |d| ==> d[i] != d[j]
  {
    if xs == [] then []
    else
      var d := FirstOccurrences(xs[..|xs| - 1]);
      assert xs == xs[..|xs| - 1] + [xs[|xs| - 1]];
      if xs[|xs| - 1] in d then d else d + [xs[|xs| - 1]]
  }

  /**
   * Every placeholder identifier gets marker `k + 1` where `k` is the rank of its
   * first occurrence among the distinct identifiers, and `paramCount - 1` is the
   * number of distinct identifiers.
   */
  lemma {:induction false} FirstOccurrenceNumbering(ts: seq<Token>)
    ensures var r := RewriteTokens(ts); var d := FirstOccurrences(Names(ts));
      && r.paramCount == |d| + 1
      && (forall x :: x in r.paramMap <==> x in d)
      && (forall k :: 0 <= k < |d| ==> r.paramMap[d[k]] == k + 1)
  {
    if ts != [] {
      var front := ts[..|ts| - 1];
      var t := ts[|ts| - 1];
      FirstOccurrenceNumbering(front);
      var d0 := FirstOccurrences(Names(front));
      if t.Param? {
        assert Names(ts) == Names(front) + [t.name];
        assert Names(ts)[..|Names(ts)| - 1] == Names(front);
      } else {
        assert Names(ts) == Names(front);
      }
    }
  }

  /** The markers in use are exactly `$1` … `$n`, without gaps, one per distinct identifier. */
  lemma MarkersWithoutGaps(ts: seq<Token>)
    ensures var r := RewriteTokens(ts);
      && (forall x :: x in r.paramMap ==> 1 <= r.paramMap[x] < r.paramCount)
      && (forall k :: 1 <= k < r.paramCount ==> k in r.paramMap.Values)
      && (forall x, y :: x in r.paramMap && y in r.paramMap && r.paramMap[x] == r.paramMap[y] ==> x == y)
  {
    var r := RewriteTokens(ts);
    FirstOccurrenceNumbering(ts);
    NumberedWithoutGaps(r.paramMap, r.paramCount, FirstOccurrences(Names(ts)));
  }

  lemma NumberedWithoutGaps(paramMap: map<string, nat>, paramCount: nat, d: seq<string>)
    requires NumberedInOrder(paramMap, paramCount, d)
    requires forall i, j :: 0 <= i < j < |d| ==> d[i] != d[j]
    ensures forall x :: x in paramMap ==> 1 <= paramMap[x] < paramCount
    ensures forall k :: 1 <= k < paramCount ==> k in paramMap.Values
    ensures forall x, y :: x in paramMap && y in paramMap && paramMap[x] == paramMap[y] ==> x == y
  {
    forall x | x in paramMap
      ensures exists k :: 0 <= k < |d| && d[k] == x
    {
      assert x in d;
    }
    forall k | 1 <= k < paramCount
      ensures k in paramMap.Values
    {
      assert paramMap[d[k - 1]] == k;
    }
  }

  /**
   * The text with every literal character kept and every placeholder replaced by
   * the marker that `paramMap` gives its identifier.
   */
  function Substitute(ts: seq<Token>, paramMap: map<string, nat>): string {
    if ts == [] then ""
    else
      var t := ts[|ts| - 1];
      Substitute(ts[..|ts| - 1], paramMap)
        + match t
          case Lit(c) => [c]
          case Param(name) => if name in paramMap then Marker(paramMap[name]) else Spelling(t)
  }

  lemma {:induction false} SubstituteAgrees(ts: seq<Token>, m1: map<string, nat>, m2: map<string, nat>)
    requires forall x :: x in Names(ts) ==> x in m1 && x in m2 && m1[x] == m2[x]
    ensures Substitute(ts, m1) == Substitute(ts, m2)
  {
    if ts != [] {
      var front := ts[..|ts| - 1];
      assert forall x :: x in Names(front) ==> x in Names(ts);
      SubstituteAgrees(front, m1, m2);
    }
  }

  /** Rewriting never forgets or renumbers an identifier it has seen. */
  lemma {:induction false} RewritingExtends(ts: seq<Token>, u: seq<Token>)
    ensures var before := RewriteTokens(ts).paramMap; var after := RewriteTokens(ts + u).paramMap;
      forall x :: x in before ==> x in after && after[x] == before[x]
    decreases |u|
  {
    if u != [] {
      var w := ts + u[..|u| - 1];
      assert (ts + u)[..|ts + u| - 1] == w;
      assert (ts + u)[|ts + u| - 1] == u[|u| - 1];
      RewritingExtends(ts, u[..|u| - 1]);
      assert RewriteTokens(ts + u) == RewriteStep(RewriteTokens(w), u[|u| - 1]);
    } else {
      assert ts + u == ts;
    }
  }

  lemma {:induction false} NamesAreMapped(ts: seq<Token>)
    ensures forall x :: x in Names(ts) ==> x in RewriteTokens(ts).paramMap
  {
    FirstOccurrenceNumbering(ts);
  }

  /**
   * The processed query is the token text with each literal copied and each
   * placeholder, first or repeated, replaced by its identifier's one marker.
   */
  lemma {:induction false} ProcessedIsSubstitution(ts: seq<Token>)
    ensures RewriteTokens(ts).processed == Substitute(ts, RewriteTokens(ts).paramMap)
  {
    if ts != [] {
      var front := ts[..|ts| - 1];
      ProcessedIsSubstitution(front);
      var m0 := RewriteTokens(front).paramMap;
      var m := RewriteTokens(ts).paramMap;
      assert front + [ts[|ts| - 1]] == ts;
      RewritingExtends(front, [ts[|ts| - 1]]);
      NamesAreMapped(front);
      SubstituteAgrees(front, m0, m);
    }
  }

  /**
   * The whole rewriting of a query text: every `:name` becomes `$k` for the
   * first-occurrence rank `k` of `name`, and all other characters are copied.
   */
  lemma RewriteQueryMeaning(queryText: string)
    ensures var ts := Tokenize(queryText); var r := RewriteQuery(queryText); var d := FirstOccurrences(Names(ts));
      && Untokenize(ts) == queryText
      && r.processed == Substitute(ts, r.paramMap)
      && r.paramCount - 1 == |d|
      && (forall k :: 0 <= k < |d| ==> d[k] in r.paramMap && r.paramMap[d[k]] == k + 1)
  {
    TokenizeRoundTrip(queryText);
    ProcessedIsSubstitution(Tokenize(queryText));
    FirstOccurrenceNumbering(Tokenize(queryText));
  }

  /** A text without placeholders is handed to the database as it is. */
  lemma {:induction false} NoPlaceholdersNoChange(ts: seq<Token>, m: map<string, nat>)
    requires forall i :: 0 <= i < |ts| ==> ts[i].Lit?
    ensures Substitute(ts, m) == Untokenize(ts)
  {
    if ts != [] {
      NoPlaceholdersNoChange(ts[1..], m);
      SubstituteFront(ts, m);
    }
  }

  /** `Substitute` read from the front, one token at a time. */
  lemma {:induction false} SubstituteFront(ts: seq<Token>, m: map<string, nat>)
    requires ts != []
    ensures Substitute(ts, m) == Substitute([ts[0]], m) + Substitute(ts[1..], m)
    decreases |ts|
  {
    if |ts| > 1 {
      var front := ts[..|ts| - 1];
      SubstituteFront(front, m);
      assert front[1..] == ts[1..][..|ts[1..]| - 1];
      assert front[0] == ts[0];
    }
  }

  // ---------------------------------------------------------------------------
  // Binding values
  // ---------------------------------------------------------------------------

  /** A parameter object as its own enumerable properties, in `Object.keys` order. */
  type Parameters = seq<(string, Json)>

  function Keys(parameters: Parameters): (ks: seq<string>)
    ensures |ks| == |parameters| && forall i :: 0 <= i < |ks| ==> ks[i] == parameters[i].0
  {
    if parameters == [] then [] else [parameters[0].0] + Keys(parameters[1..])
  }

  predicate DistinctKeys(parameters: Parameters) {
    forall i, j :: 0 <= i < j < |parameters| ==> parameters[i].0 != parameters[j].0
  }

  predicate DistinctValues(parameters: Parameters) {
    forall i, j :: 0 <= i < j < |parameters| ==> parameters[i].1 != parameters[j].1
  }

  /** `parameters[name]`. */
  function Lookup(parameters: Parameters, name: string): (r: Option<Json>)
    ensures r.Some? <==> exists i :: 0 <= i < |parameters| && parameters[i].0 == name
    ensures DistinctKeys(parameters) ==> forall i :: 0 <= i < |parameters| && parameters[i].0 == name ==> r == Some(parameters[i].1)
  {
    if parameters == [] then None
    else if parameters[0].0 == name then Some(parameters[0].1)
    else
      var r := Lookup(parameters[1..], name);
      assert forall i :: 1 <= i < |parameters| ==> parameters[1..][i - 1] == parameters[i];
      r
  }

  /** `Object.keys(parameters).map(param => parameters[param])`: one value per key, in key order. */
  function ParamValues(parameters: Parameters): (values: seq<Json>)
    ensures |values| == |parameters|
    ensures DistinctKeys(parameters) ==> forall i :: 0 <= i < |values| ==> Lookup(parameters, parameters[i].0) == Some(values[i])
  {
    seq(|parameters|, i requires 0 <= i < |parameters| => parameters[i].1)
  }

  /** `paramMap` numbers the names of `d` by position and nothing else, and `paramCount` is one past the last number. */
  ghost predicate NumberedInOrder(paramMap: map<string, nat>, paramCount: nat, d: seq<string>) {
    && paramCount == |d| + 1
    && (forall x :: x in paramMap <==> x in d)
    && (forall k :: 0 <= k < |d| ==> paramMap[d[k]] == k + 1)
  }

  /** Marker `$k` of every name in `paramMap` receives that name's value, and there are as many values as markers. */
  predicate MarkersBind(paramMap: map<string, nat>, paramCount: nat, parameters: Parameters) {
    var values := ParamValues(parameters);
    && paramCount - 1 == |values|
    && forall name :: name in paramMap ==>
         1 <= paramMap[name] <= |values| && Lookup(parameters, name) == Some(values[paramMap[name] - 1])
  }

  /**
   * The database receives the value of each identifier at the position of its
   * marker (`$k` takes the k-th value), and exactly as many values as markers.
   */
  predicate BindsByName(queryText: string, parameters: Parameters) {
    var r := RewriteQuery(queryText);
    MarkersBind(r.paramMap, r.paramCount, parameters)
  }

  lemma BindsInOrder(paramMap: map<string, nat>, paramCount: nat, d: seq<string>, parameters: Parameters)
    requires NumberedInOrder(paramMap, paramCount, d)
    requires DistinctKeys(parameters) && Keys(parameters) == d
    ensures MarkersBind(paramMap, paramCount, parameters)
  {
    var values := ParamValues(parameters);
    forall name | name in paramMap
      ensures 1 <= paramMap[name] <= |values| && Lookup(parameters, name) == Some(values[paramMap[name] - 1])
    {
      var k :| 0 <= k < |d| && d[k] == name;
      assert parameters[k].0 == name;
    }
  }

  lemma OrderFromBinding(paramMap: map<string, nat>, paramCount: nat, d: seq<string>, parameters: Parameters)
    requires NumberedInOrder(paramMap, paramCount, d)
    requires DistinctKeys(parameters) && DistinctValues(parameters)
    requires MarkersBind(paramMap, paramCount, parameters)
    ensures Keys(parameters) == d
  {
    var values := ParamValues(parameters);
    var ks := Keys(parameters);
    forall k | 0 <= k < |d|
      ensures ks[k] == d[k]
    {
      assert d[k] in paramMap;
      var o := Lookup(parameters, d[k]);
      assert o == Some(values[k]);
      var j :| 0 <= j < |parameters| && parameters[j].0 == d[k];
      assert o == Some(parameters[j].1);
      assert parameters[j].1 == parameters[k].1;
    }
  }

  /** When the keys are enumerated in first-occurrence order, every marker receives its identifier's value. */
  lemma BindsWhenKeysInFirstOccurrenceOrder(queryText: string, parameters: Parameters)
    requires DistinctKeys(parameters)
    requires Keys(parameters) == FirstOccurrences(Names(Tokenize(queryText)))
    ensures BindsByName(queryText, parameters)
  {
    var ts := Tokenize(queryText);
    var r := RewriteQuery(queryText);
    FirstOccurrenceNumbering(ts);
    BindsInOrder(r.paramMap, r.paramCount, FirstOccurrences(Names(ts)), parameters);
  }

  /**
   * Conversely, when the values are pairwise different, a correct binding is only
   * possible if the keys are enumerated in first-occurrence order.
   */
  lemma KeysInFirstOccurrenceOrderWhenBound(queryText: string, parameters: Parameters)
    requires DistinctKeys(parameters) && DistinctValues(parameters)
    requires BindsByName(queryText, parameters)
    ensures Keys(parameters) == FirstOccurrences(Names(Tokenize(queryText)))
  {
    var ts := Tokenize(queryText);
    var r := RewriteQuery(queryText);
    FirstOccurrenceNumbering(ts);
    OrderFromBinding(r.paramMap, r.paramCount, FirstOccurrences(Names(ts)), parameters);
  }

  /** The binding follows key order, not placeholder order: ":b, :a" with keys a, b swaps the values. */
  lemma KeyOrderMisbinds()
    ensures !BindsByName(":b:a", [("a", JNumber(1)), ("b", JNumber(2))])
  {
    var parameters := [("a", JNumber(1)), ("b", JNumber(2))];
    var r := RewriteQuery(":b:a");
    RewriteBA();
    assert "b" in r.paramMap && r.paramMap["b"] == 1;
    assert Lookup(parameters, "b") == Some(JNumber(2));
    assert ParamValues(parameters)[0] == JNumber(1);
  }

  /** Rewriting ":b:a" numbers b first. */
  lemma RewriteBA()
    ensures RewriteQuery(":b:a").paramMap == map["b" := 1, "a" := 2]
  {
    var ts := [Param("b"), Param("a")];
    TokenizeBA();
    assert ts[..1] == [Param("b")];
    assert RewriteTokens(ts[..1]) == RewriteStep(Start, Param("b"));
    assert RewriteTokens(ts) == RewriteStep(RewriteTokens(ts[..1]), Param("a"));
  }

  /** The text ":b:a" holds the placeholders b and a, in that order. */
  lemma TokenizeBA()
    ensures Tokenize(":b:a") == [Param("b"), Param("a")]
  {
    var q := ":b:a";
    assert WordLength("a") == 1;
    UnfoldAtPlaceholder(":a");
    assert ":a"[1..2] == "a" && ":a"[2..] == "";
    assert q[1..] == "b:a" && WordLength("b:a") == 1;
    UnfoldAtPlaceholder(q);
    assert q[1..2] == "b" && q[2..] == ":a";
  }

  // ---------------------------------------------------------------------------
  // executeQuery and queryDatabase
  // ---------------------------------------------------------------------------

  /** The outcome `sql.query(text, values)` of the database: the rows, or the driver's error message. */
  type Database = (string, seq<Json>) -> Result<seq<Json>>

  const DatabaseFailurePrefix := "Database query failed: "
  const ExecutionFailurePrefix := "Query execution failed: "
  const OnlySelectMessage := "Only SELECT operations are allowed"

  /** `executeQuery`: rewrite, bind in key order, run, and wrap a driver error. */
  method ExecuteQuery(queryText: string, parameters: Parameters, db: Database) returns (r: Result<seq<Json>>)
    ensures var processed := RewriteQuery(queryText).processed;
      match db(processed, ParamValues(parameters))
      case Success(rows) => r == Success(rows)
      case Failure(m) => r == Failure(DatabaseFailurePrefix + m)
  {
    var processedQuery, paramMap, paramCount := ProcessQuery(queryText);
    var paramValues := ParamValues(parameters);
    var result := db(processedQuery, paramValues);
    match result {
      case Success(rows) => r := Success(rows);
      case Failure(m) => r := Failure(DatabaseFailurePrefix + m);
    }
  }

  /** ASCII case mapping of `toLowerCase`. */
  function LowerChar(c: char): char {
    if 'A' <= c <= 'Z' then (c as int + 32) as char else c
  }

  function UpperChar(c: char): char {
    if 'a' <= c <= 'z' then (c as int - 32) as char else c
  }

  function ToLower(s: string): (r: string)
    ensures |r| == |s| && forall i :: 0 <= i < |s| ==> r[i] == LowerChar(s[i])
  {
    seq(|s|, i requires 0 <= i < |s| => LowerChar(s[i]))
  }

  function ToUpper(s: string): (r: string)
    ensures |r| == |s| && forall i :: 0 <= i < |s| ==> r[i] == UpperChar(s[i])
  {
    seq(|s|, i requires 0 <= i < |s| => UpperChar(s[i]))
  }

  /** `s.includes(w)`. */
  predicate Contains(s: string, w: string) {
    exists i :: 0 <= i <= |s| - |w| && OccursAt(s, w, i)
  }

  predicate OccursAt(s: string, w: string, i: int) {
    0 <= i <= |s| - |w| && s[i..i + |w|] == w
  }

  const ForbiddenKeywords: seq<string> := ["drop", "truncate", "delete", "update", "insert"]

  /** The guard of `queryDatabase`: the lower-cased statement mentions a data-changing keyword. */
  predicate IsRejected(query: string) {
    var normalizedQuery := ToLower(query);
    Contains(normalizedQuery, "drop") || Contains(normalizedQuery, "truncate") || Contains(normalizedQuery, "delete")
    || Contains(normalizedQuery, "update") || Contains(normalizedQuery, "insert")
  }

  /** Forbidden keyword `k`, in some mixture of letter cases, starts at position `i` of the statement. */
  predicate KeywordAt(query: string, k: nat, i: nat) {
    k < |ForbiddenKeywords| && i + |ForbiddenKeywords[k]| <= |query|
    && ToLower(query[i..i + |ForbiddenKeywords[k]|]) == ForbiddenKeywords[k]
  }

  /** A keyword written in any mixture of letter cases anywhere in the statement is refused. */
  lemma RejectsAnyLetterCase(query: string, k: nat, i: nat)
    requires KeywordAt(query, k, i)
    ensures IsRejected(query)
  {
    var w := ForbiddenKeywords[k];
    var n := ToLower(query);
    assert n[i..i + |w|] == ToLower(query[i..i + |w|]);
    assert OccursAt(n, w, i);
    assert Contains(n, w);
    assert w == "drop" || w == "truncate" || w == "delete" || w == "update" || w == "insert";
  }

  /** Which keyword a refused statement contains, once lower-cased. */
  lemma RefusedKeyword(query: string) returns (k: nat)
    requires IsRejected(query)
    ensures k < |ForbiddenKeywords| && Contains(ToLower(query), ForbiddenKeywords[k])
  {
    var n := ToLower(query);
    if Contains(n, "drop") { k := 0; }
    else if Contains(n, "truncate") { k := 1; }
    else if Contains(n, "delete") { k := 2; }
    else if Contains(n, "update") { k := 3; }
    else { k := 4; }
  }

  /**
   * The guard refuses a statement exactly when one of the forbidden keywords
   * occurs in it, in some mixture of letter cases.
   */
  lemma RejectedIffSomeKeyword(query: string)
    ensures IsRejected(query) <==> exists k: nat, i: nat :: KeywordAt(query, k, i)
  {
    if IsRejected(query) {
      var k := RefusedKeyword(query);
      var w := ForbiddenKeywords[k];
      var n := ToLower(query);
      var i :| 0 <= i <= |n| - |w| && OccursAt(n, w, i);
      assert ToLower(query[i..i + |w|]) == n[i..i + |w|];
      assert KeywordAt(query, k, i);
    }
    if exists k: nat, i: nat :: KeywordAt(query, k, i) {
      var k: nat, i: nat :| KeywordAt(query, k, i);
      RejectsAnyLetterCase(query, k, i);
    }
  }

  /** The guard gives a statement and its upper-cased form the same verdict. */
  lemma GuardIgnoresCase(query: string)
    ensures IsRejected(ToUpper(query)) == IsRejected(query)
  {
    assert ToLower(ToUpper(query)) == ToLower(query);
  }

  /** The filter is lexical: a column such as `updated_at` makes a plain SELECT rejected. */
  lemma RejectsUpdatedAtColumn()
    ensures IsRejected("SELECT updated_at FROM deliveries")
  {
    var before, after := "SELECT ", "d_at FROM deliveries";
    assert "SELECT updated_at FROM deliveries" == before + ForbiddenKeywords[3] + after;
    RejectsEmbeddedKeyword(before, 3, after);
  }

  /** A keyword spelled in lower case between any two texts is refused. */
  lemma RejectsEmbeddedKeyword(before: string, k: nat, after: string)
    requires k < |ForbiddenKeywords|
    ensures IsRejected(before + ForbiddenKeywords[k] + after)
  {
    var w := ForbiddenKeywords[k];
    var q := before + w + after;
    assert q[|before|..|before| + |w|] == w;
    assert ToLower(w) == w;
    RejectsAnyLetterCase(q, k, |before|);
  }

  /** The arguments `{ query, parameters }` of a `query_database` call. */
  datatype QueryArgs = QueryArgs(query: string, parameters: Parameters)

  /**
   * `queryDatabase`: a rejected statement fails with the guard's message and the
   * database is not consulted; otherwise the rows come back serialised, and a
   * database failure comes back wrapped twice.
   */
  method QueryDatabase(args: QueryArgs, db: Database, stringify: Json -> string) returns (r: Result<string>)
    ensures IsRejected(args.query) ==> r == Failure(OnlySelectMessage)
    ensures !IsRejected(args.query) ==>
      var processed := RewriteQuery(args.query).processed;
      match db(processed, ParamValues(args.parameters))
      case Success(rows) => r == Success(stringify(JArray(rows)))
      case Failure(m) => r == Failure(ExecutionFailurePrefix + DatabaseFailurePrefix + m)
  {
    var normalizedQuery := ToLower(args.query);
    if Contains(normalizedQuery, "drop") || Contains(normalizedQuery, "truncate") || Contains(normalizedQuery, "delete")
      || Contains(normalizedQuery, "update") || Contains(normalizedQuery, "insert")
    {
      return Failure(OnlySelectMessage);
    }
    var results := ExecuteQuery(args.query, args.parameters, db);
    match results {
      case Success(rows) => r := Success(stringify(JArray(rows)));
      case Failure(m) => r := Failure(ExecutionFailurePrefix + m);
    }
  }
}
