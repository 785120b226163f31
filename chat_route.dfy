/**
 * The streaming side of the chat route (app/api/chat/route.js): text deltas are
 * written through as they arrive, tool-call deltas are assembled into one call
 * held in `currentFunctionName` and `functionArgsBuffer`, and at the end of the
 * stream a `query_database` call with a non-blank buffer is parsed and run.
 * `JSON.parse`, `JSON.stringify` and the connection pool are oracle parameters.
 */
module ChatRoute {
  import opened Common

  /** The one tool this deployment declares, and the default for an unnamed call. */
  const QueryDatabaseTool := "query_database"

  // ---------------------------------------------------------------------------
  // String.prototype.trim
  // ---------------------------------------------------------------------------

  /** The white space and line terminators that `trim` removes. */
  predicate IsJsWhitespace(c: char) {
    c == '\t' || c == '\n' || c == '\U{000B}' || c == '\U{000C}' || c == '\r' || c == ' '
    || c == '\U{00A0}' || c == '\U{1680}' || '\U{2000}' <= c <= '\U{200A}'
    || c == '\U{2028}' || c == '\U{2029}' || c == '\U{202F}' || c == '\U{205F}'
    || c == '\U{3000}' || c == '\U{FEFF}'
  }

  predicate IsBlank(s: string) {
    forall i :: 0 <= i < |s| ==> IsJsWhitespace(s[i])
  }

  /** The number of white-space characters that start `s`. */
  function LeadingSpace(s: string): (n: nat)
    ensures n <= |s|
    ensures forall i :: 0 <= i < n ==> IsJsWhitespace(s[i])
    ensures n < |s| ==> !IsJsWhitespace(s[n])
  {
    if s == [] || !IsJsWhitespace(s[0]) then 0 else 1 + LeadingSpace(s[1..])
  }

  /** The length of `s` without the white-space characters that end it. */
  function TrailingStart(s: string): (n: nat)
    ensures n <= |s|
    ensures forall i :: n <= i < |s| ==> IsJsWhitespace(s[i])
    ensures n > 0 ==> !IsJsWhitespace(s[n - 1])
  {
    if s == [] || !IsJsWhitespace(s[|s| - 1]) then |s| else TrailingStart(s[..|s| - 1])
  }

  /** `s.trim()`. */
  function Trim(s: string): string {
    var t := s[LeadingSpace(s)..];
    t[..TrailingStart(t)]
  }

  /** `s.trim()` is the empty string exactly when every character of `s` is white space. */
  lemma TrimEmptyIffBlank(s: string)
    ensures Trim(s) == "" <==> IsBlank(s)
  {
    var n := LeadingSpace(s);
    var t := s[n..];
    var m := TrailingStart(t);
    assert m > 0 ==> t[0] == s[n];
  }

  // ---------------------------------------------------------------------------
  // Assembling one tool call from its deltas
  // ---------------------------------------------------------------------------

  /** A `toolCallDelta` event: `function.name` and `function.arguments`, `None` for null or missing. */
  datatype ToolCallDelta = ToolCallDelta(name: Option<string>, arguments: Option<string>)

  /** `!fnName || !fnName.trim()`: the delta names no function. */
  predicate NameMissing(name: Option<string>) {
    name.None? || Trim(name.value) == ""
  }

  /** `!currentFunctionName`: no function name is known yet. */
  predicate Unnamed(name: Option<string>) {
    name.None? || name.value == ""
  }

  /** `toolCallDelta.function.arguments ?? ''`. */
  function ArgumentsText(d: ToolCallDelta): string {
    match d.arguments
    case Some(a) => a
    case None => ""
  }

  /** The two variables the route keeps while the stream runs. */
  datatype Assembly = Assembly(currentFunctionName: Option<string>, functionArgsBuffer: string)

  const NoCallYet := Assembly(None, "")

  /** The `toolCallDelta` handler as a transition. */
  function Next(st: Assembly, d: ToolCallDelta): Assembly {
    if NameMissing(d.name) then
      var name := if Unnamed(st.currentFunctionName) then Some(QueryDatabaseTool) else st.currentFunctionName;
      Assembly(name, st.functionArgsBuffer + ArgumentsText(d))
    else if d.name != st.currentFunctionName then
      Assembly(d.name, ArgumentsText(d))
    else
      Assembly(st.currentFunctionName, st.functionArgsBuffer + ArgumentsText(d))
  }

  /** The state after the deltas, in arrival order. */
  function Run(st: Assembly, ds: seq<ToolCallDelta>): Assembly
    decreases |ds|
  {
    if ds == [] then st else Run(Next(st, ds[0]), ds[1..])
  }

  /** Handling two batches of deltas one after the other is handling them together. */
  lemma {:induction false} RunConcat(st: Assembly, ds: seq<ToolCallDelta>, es: seq<ToolCallDelta>)
    ensures Run(st, ds + es) == Run(Run(st, ds), es)
    decreases |ds|
  {
    if ds == [] {
      assert ds + es == es;
    } else {
      assert (ds + es)[0] == ds[0] && (ds + es)[1..] == ds[1..] + es;
      RunConcat(Next(st, ds[0]), ds[1..], es);
    }
  }

  lemma RunSnoc(st: Assembly, ds: seq<ToolCallDelta>, d: ToolCallDelta)
    ensures Run(st, ds + [d]) == Next(Run(st, ds), d)
  {
    RunConcat(st, ds, [d]);
  }

  /** The arguments of the deltas, concatenated in arrival order. */
  function ConcatArguments(ds: seq<ToolCallDelta>): string {
    if ds == [] then "" else ConcatArguments(ds[..|ds| - 1]) + ArgumentsText(ds[|ds| - 1])
  }

  lemma {:induction false} ConcatArgumentsSplit(ds: seq<ToolCallDelta>, k: nat)
    requires k <= |ds|
    ensures ConcatArguments(ds) == ConcatArguments(ds[..k]) + ConcatArguments(ds[k..])
    decreases |ds|
  {
    if k < |ds| {
      var front := ds[..|ds| - 1];
      ConcatArgumentsSplit(front, k);
      assert front[..k] == ds[..k];
      assert ds[k..][..|ds[k..]| - 1] == front[k..];
    } else {
      assert ds[..k] == ds;
      assert ds[k..] == [];
    }
  }

  /** The last name a delta gave explicitly, if any. */
  function LastGivenName(ds: seq<ToolCallDelta>): (r: Option<string>)
    ensures r.Some? ==> !NameMissing(r)
  {
    if ds == [] then None
    else if !NameMissing(ds[|ds| - 1].name) then ds[|ds| - 1].name
    else LastGivenName(ds[..|ds| - 1])
  }

  /**
   * The name the route holds after the deltas: the last name given, or
   * `query_database` when deltas arrived but none gave a name.
   */
  function CallName(ds: seq<ToolCallDelta>): Option<string> {
    if LastGivenName(ds).Some? then LastGivenName(ds)
    else if ds == [] then None
    else Some(QueryDatabaseTool)
  }

  lemma GivenNameNotEmpty(name: Option<string>)
    requires !NameMissing(name)
    ensures !Unnamed(name)
  {
    TrimEmptyIffBlank(name.value);
  }

  lemma {:induction false} NameAfterRun(ds: seq<ToolCallDelta>)
    ensures Run(NoCallYet, ds).currentFunctionName == CallName(ds)
  {
    if ds != [] {
      var front := ds[..|ds| - 1];
      var d := ds[|ds| - 1];
      assert ds == front + [d];
      NameAfterRun(front);
      RunSnoc(NoCallYet, front, d);
      if LastGivenName(front).Some? {
        GivenNameNotEmpty(LastGivenName(front));
      }
    }
  }

  /** Delta `i` starts a new call: it names a function other than the one current before it. */
  predicate OpensCall(ds: seq<ToolCallDelta>, i: nat)
    requires i < |ds|
  {
    !NameMissing(ds[i].name) && ds[i].name != CallName(ds[..i])
  }

  /** Where the call in progress began: the last delta that opened a call, or the first delta. */
  function CallStart(ds: seq<ToolCallDelta>): (k: nat)
    ensures k <= |ds|
    ensures ds != [] ==> k < |ds|
  {
    if ds == [] then 0
    else if OpensCall(ds, |ds| - 1) then |ds| - 1
    else CallStart(ds[..|ds| - 1])
  }

  /** The buffer holds exactly the arguments of the deltas since the call in progress began, in order. */
  lemma {:induction false} BufferAfterRun(ds: seq<ToolCallDelta>)
    ensures Run(NoCallYet, ds).functionArgsBuffer == ConcatArguments(ds[CallStart(ds)..])
  {
    if ds != [] {
      var front := ds[..|ds| - 1];
      var d := ds[|ds| - 1];
      assert ds == front + [d];
      BufferAfterRun(front);
      NameAfterRun(front);
      RunSnoc(NoCallYet, front, d);
      if OpensCall(ds, |ds| - 1) {
        assert ds[|ds| - 1..] == [d];
        assert ConcatArguments([d]) == ConcatArguments([]) + ArgumentsText(d);
      } else {
        var k := CallStart(front);
        assert ds[k..] == front[k..] + [d];
        assert ds[k..][..|ds[k..]| - 1] == front[k..];
      }
    }
  }

  /** A delta that names a different function discards everything assembled before it. */
  lemma NewCallDiscardsHistory(before: seq<ToolCallDelta>, d: ToolCallDelta, after: seq<ToolCallDelta>)
    requires !NameMissing(d.name) && d.name != Run(NoCallYet, before).currentFunctionName
    ensures Run(NoCallYet, before + [d] + after) == Run(NoCallYet, [d] + after)
  {
    RunConcat(NoCallYet, before + [d], after);
    RunSnoc(NoCallYet, before, d);
    RunConcat(NoCallYet, [d], after);
  }

  /**
   * Deltas that name no function, or the current one, continue the call: the
   * name stays and their arguments are appended in arrival order.
   */
  lemma {:induction false} ContinuationsAppend(st: Assembly, ds: seq<ToolCallDelta>)
    requires !Unnamed(st.currentFunctionName)
    requires forall i :: 0 <= i < |ds| ==> NameMissing(ds[i].name) || ds[i].name == st.currentFunctionName
    ensures Run(st, ds) == Assembly(st.currentFunctionName, st.functionArgsBuffer + ConcatArguments(ds))
  {
    if ds != [] {
      var front := ds[..|ds| - 1];
      var d := ds[|ds| - 1];
      assert ds == front + [d];
      ContinuationsAppend(st, front);
      RunSnoc(st, front, d);
      var buffer := st.functionArgsBuffer + ConcatArguments(front);
      assert Next(Assembly(st.currentFunctionName, buffer), d) == Assembly(st.currentFunctionName, buffer + ArgumentsText(d));
      assert ConcatArguments(ds) == ConcatArguments(front) + ArgumentsText(d);
      assert buffer + ArgumentsText(d) == st.functionArgsBuffer + ConcatArguments(ds);
    }
  }

  // ---------------------------------------------------------------------------
  // The end of the stream
  // ---------------------------------------------------------------------------

  /** What the `end` handler ends up doing with the assembled call. */
  datatype Completion =
    | NoRecognizedCall
    | ParseFailed(error: string)
    | NoSql
    | RunQuery(sql: Json, values: Option<Json>)

  /** `JSON.parse`: a value, or `String(err)` of the error it throws (its name, a colon and its message). */
  type JsonParser = string -> Result<Json>

  /** The error V8 raises for `const { sql, values } = null`. */
  const NullDestructuringError := "TypeError: Cannot destructure property 'sql' of 'parsed' as it is null."

  /**
   * The decision of the `end` handler. Nothing happens unless the call is
   * `query_database` with a buffer that is not all white space; then the buffer
   * is parsed, and the query runs only when the parsed `sql` is truthy.
   */
  function Complete(st: Assembly, parse: JsonParser): (c: Completion)
    ensures c != NoRecognizedCall <==> st.currentFunctionName == Some(QueryDatabaseTool) && !IsBlank(st.functionArgsBuffer)
    ensures c.ParseFailed? ==> parse(st.functionArgsBuffer).Failure? || parse(st.functionArgsBuffer) == Success(JNull)
    ensures c.RunQuery? ==>
      && parse(st.functionArgsBuffer).Success?
      && Truthy(Field(parse(st.functionArgsBuffer).value, "sql"))
      && Some(c.sql) == Field(parse(st.functionArgsBuffer).value, "sql")
      && c.values == Field(parse(st.functionArgsBuffer).value, "values")
    ensures st.currentFunctionName == Some(QueryDatabaseTool) && !IsBlank(st.functionArgsBuffer) ==>
      && (parse(st.functionArgsBuffer).Failure? ==> c == ParseFailed(parse(st.functionArgsBuffer).message))
      && (parse(st.functionArgsBuffer) == Success(JNull) ==> c == ParseFailed(NullDestructuringError))
      && (parse(st.functionArgsBuffer).Success? && parse(st.functionArgsBuffer).value != JNull ==>
            (c.RunQuery? <==> Truthy(Field(parse(st.functionArgsBuffer).value, "sql"))))
  {
    TrimEmptyIffBlank(st.functionArgsBuffer);
    if st.currentFunctionName == Some(QueryDatabaseTool) && Trim(st.functionArgsBuffer) != "" then
      match parse(st.functionArgsBuffer)
      case Failure(e) => ParseFailed(e)
      case Success(parsed) =>
        if parsed == JNull then ParseFailed(NullDestructuringError)
        else
          var sql := Field(parsed, "sql");
          if !Truthy(sql) then NoSql else RunQuery(sql.value, Field(parsed, "values"))
    else NoRecognizedCall
  }

  /** The connection pool: the rows of `pool.query(sql, values)`, or the error message. */
  type Pool = (Json, Option<Json>) -> Result<seq<Json>>

  /** `JSON.stringify` of a value; `undefined` renders as the text `undefined` in a template. */
  function StringifyOrUndefined(stringify: Json -> string, v: Option<Json>): string {
    match v
    case Some(j) => stringify(j)
    case None => "undefined"
  }

  /** What the `end` handler writes to the response before closing it. */
  function Report(c: Completion, pool: Pool, stringify: Json -> string): seq<string> {
    match c
    case NoRecognizedCall => []
    case NoSql => []
    case ParseFailed(e) => ["Error: could not parse tool arguments => " + e + "\n"]
    case RunQuery(sql, values) =>
      match pool(sql, values)
      case Success(rows) =>
        ["\nExecuting query: " + stringify(sql) + "\nValues: " + StringifyOrUndefined(stringify, values)
         + "\nResults: " + stringify(JArray(rows)) + "\n"]
      case Failure(m) => ["Database error: " + m + "\n"]
  }

  /** If no delta carried any non-blank argument text, nothing runs at the end. */
  lemma NoCallWithoutArguments(ds: seq<ToolCallDelta>, parse: JsonParser)
    requires IsBlank(ConcatArguments(ds))
    ensures Complete(Run(NoCallYet, ds), parse) == NoRecognizedCall
  {
    var k := CallStart(ds);
    BufferAfterRun(ds);
    ConcatArgumentsSplit(ds, k);
    var whole := ConcatArguments(ds);
    var prefix := ConcatArguments(ds[..k]);
    assert forall i :: 0 <= i < |ConcatArguments(ds[k..])| ==> whole[|prefix| + i] == ConcatArguments(ds[k..])[i];
  }

  /** A call last named as some other tool never reaches the database. */
  lemma OtherToolNeverRuns(ds: seq<ToolCallDelta>, parse: JsonParser)
    requires LastGivenName(ds).Some? && LastGivenName(ds) != Some(QueryDatabaseTool)
    ensures Complete(Run(NoCallYet, ds), parse) == NoRecognizedCall
  {
    NameAfterRun(ds);
  }

  /**
   * A named first delta and an unnamed continuation assemble one
   * `query_database` call whose arguments are the two fragments joined.
   */
  lemma TwoFragmentCall(first: string, rest: string)
    requires first != [] && !IsJsWhitespace(first[0])
    ensures var ds := [ToolCallDelta(Some(QueryDatabaseTool), Some(first)), ToolCallDelta(None, Some(rest))];
      && Run(NoCallYet, ds) == Assembly(Some(QueryDatabaseTool), first + rest)
      && !IsBlank(Run(NoCallYet, ds).functionArgsBuffer)
  {
    var d1 := ToolCallDelta(Some(QueryDatabaseTool), Some(first));
    var d2 := ToolCallDelta(None, Some(rest));
    RunTwo(NoCallYet, d1, d2);
    NamedFirstDelta(first);
    UnnamedContinues(QueryDatabaseTool, first, rest);
    assert (first + rest)[0] == first[0];
  }

  const SqlKeyFragment := "{\"sql\":"
  const SqlValueFragment := "\"SELECT 1\"}"

  /** The stream `{"sql":` then, unnamed, `"SELECT 1"}` assembles `{"sql":"SELECT 1"}` for `query_database`. */
  lemma ContinuationExample()
    ensures var ds := [ToolCallDelta(Some(QueryDatabaseTool), Some(SqlKeyFragment)), ToolCallDelta(None, Some(SqlValueFragment))];
      && Run(NoCallYet, ds) == Assembly(Some(QueryDatabaseTool), "{\"sql\":\"SELECT 1\"}")
      && !IsBlank(Run(NoCallYet, ds).functionArgsBuffer)
  {
    TwoFragmentCall(SqlKeyFragment, SqlValueFragment);
    SelectOneFragments();
  }

  lemma SelectOneFragments()
    ensures SqlKeyFragment != [] && !IsJsWhitespace(SqlKeyFragment[0])
    ensures SqlKeyFragment + SqlValueFragment == "{\"sql\":\"SELECT 1\"}"
  {
  }

  /** An unnamed delta continues a named call, appending its arguments. */
  lemma UnnamedContinues(name: string, buf: string, args: string)
    requires name != ""
    ensures Next(Assembly(Some(name), buf), ToolCallDelta(None, Some(args))) == Assembly(Some(name), buf + args)
  {
  }

  /** A first delta naming `query_database` starts that call with its arguments. */
  lemma NamedFirstDelta(args: string)
    ensures Next(NoCallYet, ToolCallDelta(Some(QueryDatabaseTool), Some(args))) == Assembly(Some(QueryDatabaseTool), args)
  {
    assert !IsJsWhitespace(QueryDatabaseTool[0]);
    TrimEmptyIffBlank(QueryDatabaseTool);
  }

  lemma RunTwo(st: Assembly, d1: ToolCallDelta, d2: ToolCallDelta)
    ensures Run(st, [d1, d2]) == Next(Next(st, d1), d2)
  {
    assert [d1, d2][1..] == [d2];
    assert Run(Next(st, d1), [d2]) == Run(Next(Next(st, d1), d2), []);
  }

  // ---------------------------------------------------------------------------
  // The stream handlers of one POST request
  // ---------------------------------------------------------------------------

  /**
   * The closure state of one request: the two assembly variables and the
   * response writer, seen as the chunks written so far and whether it is closed.
   */
  class ToolCallStream {
    var currentFunctionName: Option<string>
    var functionArgsBuffer: string
    var written: seq<string>
    var closed: bool

    constructor ()
      ensures currentFunctionName == None && functionArgsBuffer == ""
      ensures written == [] && !closed
    {
      currentFunctionName := None;
      functionArgsBuffer := "";
      written := [];
      closed := false;
    }

    function State(): Assembly
      reads this
    {
      Assembly(currentFunctionName, functionArgsBuffer)
    }

    /** `textDelta`: the partial text goes straight to the response. */
    method OnTextDelta(value: string)
      modifies this
      ensures written == old(written) + [value]
      ensures State() == old(State()) && closed == old(closed)
    {
      written := written + [value];
    }

    /** `toolCallDelta`: continue, default or restart the call, then append the fragment. */
    method OnToolCallDelta(delta: ToolCallDelta)
      modifies this
      ensures State() == Next(old(State()), delta)
      ensures NameMissing(delta.name) && Unnamed(old(currentFunctionName)) ==> currentFunctionName == Some(QueryDatabaseTool)
      ensures NameMissing(delta.name) && !Unnamed(old(currentFunctionName)) ==> currentFunctionName == old(currentFunctionName)
      ensures !NameMissing(delta.name) ==> currentFunctionName == delta.name
      ensures functionArgsBuffer ==
        (if !NameMissing(delta.name) && delta.name != old(currentFunctionName) then "" else old(functionArgsBuffer))
        + ArgumentsText(delta)
      ensures written == old(written) && closed == old(closed)
    {
      var fnName := delta.name;
      var partialArgs := match delta.arguments case Some(a) => a case None => "";
      if NameMissing(fnName) {
        if Unnamed(currentFunctionName) {
          currentFunctionName := Some(QueryDatabaseTool);
        }
        fnName := currentFunctionName;
      } else if fnName != currentFunctionName {
        functionArgsBuffer := "";
        currentFunctionName := fnName;
      }
      functionArgsBuffer := functionArgsBuffer + partialArgs;
    }

    /** `end`: run the assembled `query_database` call if there is one, report, and close. */
    method OnEnd(parse: JsonParser, pool: Pool, stringify: Json -> string)
      modifies this
      ensures written == old(written) + Report(Complete(old(State()), parse), pool, stringify)
      ensures closed
      ensures State() == old(State())
    {
      ghost var completion := Complete(State(), parse);
      if currentFunctionName == Some(QueryDatabaseTool) && Trim(functionArgsBuffer) != "" {
        var parsed := parse(functionArgsBuffer);
        if parsed.Failure? {
          assert completion == ParseFailed(parsed.message);
          written := written + ["Error: could not parse tool arguments => " + parsed.message + "\n"];
        } else if parsed.value == JNull {
          assert completion == ParseFailed(NullDestructuringError);
          written := written + ["Error: could not parse tool arguments => " + NullDestructuringError + "\n"];
        } else {
          var sql := Field(parsed.value, "sql");
          var values := Field(parsed.value, "values");
          if Truthy(sql) {
            assert completion == RunQuery(sql.value, values);
            var dbRes := pool(sql.value, values);
            if dbRes.Success? {
              var results := dbRes.value;
              written := written + ["\nExecuting query: " + stringify(sql.value) + "\nValues: "
                + StringifyOrUndefined(stringify, values) + "\nResults: " + stringify(JArray(results)) + "\n"];
            } else {
              written := written + ["Database error: " + dbRes.message + "\n"];
            }
          } else {
            assert completion == NoSql;
          }
        }
      } else {
        assert completion == NoRecognizedCall;
      }
      closed := true;
    }

    /** `error`: the stream's error message goes to the response, which is then closed. */
    method OnError(message: string)
      modifies this
      ensures written == old(written) + ["Error: " + message]
      ensures closed && State() == old(State())
    {
      written := written + ["Error: " + message];
      closed := true;
    }
  }
}
