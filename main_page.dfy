/**
 * The question and execution steps of app/ui/main_page.py: submitting a
 * question to the text-to-SQL service, and running the generated query
 * behind a 10000-row gate whose count query is `generate_count_query`.
 */
module MainPage {
  import opened Wrappers
  import opened Json
  import opened Text
  import opened CountQuery
  import opened Flexline
  import opened Text2Sql
  import opened Pages

  const MaxRecords: int := 10000

  /**
   * `record_count`: the first row's `total_rows` when the result is a
   * non-empty list with a truthy first row, 0 when the key is absent or the
   * result has no such row; a truthy first row that is not a dict has no
   * `.get`, so `AttributeError` escapes.
   */
  function RecordCount(countResults: Value): (r: Raises<Value>)
    ensures !(countResults.Arr? && countResults.items != [] && Truthy(countResults.items[0])) ==> r == Returns(Num(0))
    ensures countResults.Arr? && countResults.items != [] && Truthy(countResults.items[0]) ==>
      (if countResults.items[0].Obj?
       then r == Returns(GetOr(countResults.items[0], TotalRowsAlias, Num(0)))
       else r == Escapes(AttributeError))
  {
    if Truthy(countResults) && countResults.Arr? && Truthy(countResults.items[0]) then
      var row := countResults.items[0];
      if row.Obj? then Returns(GetOr(row, TotalRowsAlias, Num(0))) else Escapes(AttributeError)
    else Returns(Num(0))
  }

  /** The count a result reports under the alias the rewriter emits is the count read back. */
  lemma CountIsReadUnderRewriterAlias(n: int, rows: seq<Value>)
    ensures RecordCount(Arr([Obj([(TotalRowsAlias, Num(n))])] + rows)) == Returns(Num(n))
  {
    var row := Obj([(TotalRowsAlias, Num(n))]);
    assert Arr([row] + rows).items[0] == row;
    assert Lookup(row.fields, TotalRowsAlias) == Some(Num(n));
  }

  /**
   * The execution step. A `sql_query` that is not a string makes
   * `generate_count_query` raise, which is caught and reported; otherwise the
   * count query is `generate_count_query(sql_query)` and the original query
   * is gated at 10000 rows.
   */
  method RunQuery(session: SessionState, flex: FlexlineClient, sqlQuery: Value)
    modifies session, flex
    ensures !sqlQuery.Str? ==>
      session.notices == old(session.notices) + [Unexpected(AttributeError)] &&
      session.resultsDf == old(session.resultsDf) &&
      flex.runs == old(flex.runs) && flex.sent == old(flex.sent) && flex.replies == old(flex.replies)
    ensures sqlQuery.Str? ==>
      var g := GateSpec(flex, GenerateCountQuery(sqlQuery.s), RecordCount, MaxRecords, sqlQuery.s,
                        old(flex.replies), old(session.resultsDf));
      session.resultsDf == g.resultsDf && session.notices == old(session.notices) + g.notices &&
      flex.runs == old(flex.runs) + g.runs && flex.sent == old(flex.sent) + g.sent && flex.replies == g.rest
    ensures session.aiResponse == old(session.aiResponse)
  {
    if !sqlQuery.Str? {
      session.notices := session.notices + [Unexpected(AttributeError)];
      return;
    }
    var finalCountQuery := GenerateCountQuery(sqlQuery.s);
    RunGate(session, flex, finalCountQuery, RecordCount, MaxRecords, sqlQuery.s);
  }

  /** The count query run first is the rewriter's output, and the query run second is `sql_query` itself. */
  lemma QueriesRun(flex: FlexlineClient, sql: string, replies: seq<Reply>, resultsDf: Option<seq<Value>>)
    ensures var g := GateSpec(flex, GenerateCountQuery(sql), RecordCount, MaxRecords, sql, replies, resultsDf);
      g.runs == [GenerateCountQuery(sql)] || g.runs == [GenerateCountQuery(sql), sql]
  {
  }

  /** A count above 10000 never runs the original query and clears the table. */
  lemma AboveMaxIsRefused(flex: FlexlineClient, sql: string, replies: seq<Reply>, resultsDf: Option<seq<Value>>)
    requires var t1 := flex.RunSpec(GenerateCountQuery(sql), replies);
      t1.outcome.Ok? && RecordCount(t1.outcome.value).Returns? &&
      RecordCount(t1.outcome.value).value.Num? && RecordCount(t1.outcome.value).value.n > MaxRecords
    ensures var g := GateSpec(flex, GenerateCountQuery(sql), RecordCount, MaxRecords, sql, replies, resultsDf);
      g.runs == [GenerateCountQuery(sql)] && g.resultsDf.None? &&
      g.notices == [TooManyRecords(RecordCount(flex.RunSpec(GenerateCountQuery(sql), replies).outcome.value).value)]
  {
    var t1 := flex.RunSpec(GenerateCountQuery(sql), replies);
    DecideIsThreshold(CountOf(t1.outcome, RecordCount), MaxRecords);
  }

  /** A count of at most 10000 runs `sql_query`, with its `ORDER BY` intact, exactly once. */
  lemma AtMostMaxRunsOriginal(flex: FlexlineClient, sql: string, replies: seq<Reply>, resultsDf: Option<seq<Value>>)
    requires var t1 := flex.RunSpec(GenerateCountQuery(sql), replies);
      t1.outcome.Ok? && RecordCount(t1.outcome.value).Returns? &&
      RecordCount(t1.outcome.value).value.Num? && RecordCount(t1.outcome.value).value.n <= MaxRecords
    ensures GateSpec(flex, GenerateCountQuery(sql), RecordCount, MaxRecords, sql, replies, resultsDf).runs ==
      [GenerateCountQuery(sql), sql]
  {
    var t1 := flex.RunSpec(GenerateCountQuery(sql), replies);
    DecideIsThreshold(CountOf(t1.outcome, RecordCount), MaxRecords);
  }

  /**
   * The question step, for a non-empty question: `results_df` is cleared
   * before `get_sql` is called, and `ai_response` becomes the response, or
   * None with an error shown. An exception from `get_sql` is not caught on
   * this page: it is returned, after `results_df` has been cleared.
   */
  method SubmitQuestion(session: SessionState, t2s: Text2SQLClient, question: string) returns (escaped: Option<PyError>)
    modifies session, t2s
    ensures question == [] ==>
      escaped.None? && session.resultsDf == old(session.resultsDf) && session.aiResponse == old(session.aiResponse) &&
      session.notices == old(session.notices) &&
      t2s.log == old(t2s.log) && t2s.replies == old(t2s.replies) && t2s.token == old(t2s.token)
    ensures question != [] ==> session.resultsDf.None?
    ensures question != [] ==>
      var first := if !Truthy(old(t2s.token)) || Text2Sql.NextReply(old(t2s.replies)).ConnectionFailed? then None
                   else Some(Text2Sql.NextReply(old(t2s.replies)));
      match FinalOutcome(first)
      case Escapes(e) =>
        escaped == Some(e) && session.aiResponse == old(session.aiResponse) && session.notices == old(session.notices)
      case Returns(response) =>
        escaped.None? && session.aiResponse == response &&
        session.notices == old(session.notices) + (if response.None? then [AiUnavailable] else [])
    ensures question != [] ==>
      t2s.log == old(t2s.log) + (if Truthy(old(t2s.token)) then [QuestionRequest(t2s.AiUrl(), old(t2s.token), question)] else [])
    ensures question != [] ==>
      t2s.replies == (if Truthy(old(t2s.token)) then AfterReply(old(t2s.replies)) else old(t2s.replies))
    ensures t2s.token == old(t2s.token) && t2s.username == old(t2s.username) && t2s.password == old(t2s.password)
  {
    if question == [] {
      return None;
    }
    session.resultsDf := None;
    var response := t2s.GetSql(question);
    if response.Escapes? {
      return Some(response.error);
    }
    // `response or None`: a non-None response is a dict carrying `read_only`, so it is truthy
    session.aiResponse := response.value;
    if response.value.None? {
      session.notices := session.notices + [AiUnavailable];
    }
    return None;
  }

  /** A response kept as `ai_response` is always one flagged read-only. */
  lemma KeptResponseIsReadOnly(first: Option<HttpReply>)
    requires FinalOutcome(first).Returns? && FinalOutcome(first).value.Some?
    ensures var d := FinalOutcome(first).value.value;
      d.Obj? && Truthy(d) && Truthy(GetOr(d, "read_only", Null))
  {
  }
}
