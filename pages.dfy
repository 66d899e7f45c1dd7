/**
 * The Streamlit session state both pages write (`results_df`, `ai_response`
 * and the messages shown), and the size gate both pages put in front of a
 * query: run a count query, read the count back, refuse above a threshold,
 * otherwise run the original query and shape its rows.
 *
 * The gate is written once; main.py and app/ui/main_page.py differ only in
 * the count query they build, how they read the count back, and the
 * threshold.
 */
module Pages {
  import opened Wrappers
  import opened Json
  import opened Flexline

  /** A message the page shows (`st.error`, `st.warning`, `st.info`, `st.success`). */
  datatype Notice =
    | AiUnavailable
    | TooManyRecords(count: Value)
    | Fetching(count: Value)
    | Executed
    | NotATable(raw: Value)
    | LambdaFailed(failure: FlexlineError)
    | Unexpected(raised: PyError)

  /** `st.session_state`, as far as the pages use it. */
  class SessionState {
    var resultsDf: Option<seq<Value>>
    var aiResponse: Option<Value>
    var notices: seq<Notice>

    constructor ()
      ensures resultsDf.None? && aiResponse.None? && notices == []
    {
      resultsDf := None;
      aiResponse := None;
      notices := [];
    }
  }

  /** What the count decides. */
  datatype Gate =
    | Admitted(count: Value)
    | Refused(count: Value)
    | Failed(notice: Notice)

  /**
   * `if record_count > MAX_RECORDS`: a count the comparison rejects is
   * refused, one it accepts is admitted, and a count that cannot be compared
   * with an `int` raises `TypeError`; a failed count query or count
   * extraction is caught and reported.
   */
  function Decide(count: Result<Raises<Value>, FlexlineError>, max: int): (g: Gate)
    ensures g.Admitted? <==> count.Ok? && count.value.Returns? && GreaterThan(count.value.value, max) == Some(false)
    ensures g.Refused? <==> count.Ok? && count.value.Returns? && GreaterThan(count.value.value, max) == Some(true)
    ensures g.Admitted? || g.Refused? ==> g.count == count.value.value
    ensures count.Err? ==> g == Failed(LambdaFailed(count.error))
    ensures count.Ok? && count.value.Escapes? ==> g == Failed(Unexpected(count.value.error))
  {
    match count
    case Err(e) => Failed(LambdaFailed(e))
    case Ok(Escapes(e)) => Failed(Unexpected(e))
    case Ok(Returns(c)) =>
      match GreaterThan(c, max)
      case None => Failed(Unexpected(TypeError))
      case Some(over) => if over then Refused(c) else Admitted(c)
  }

  /** An admitted numeric count is at most the threshold; a refused one is above it. */
  lemma DecideIsThreshold(count: Result<Raises<Value>, FlexlineError>, max: int)
    requires count.Ok? && count.value.Returns? && count.value.value.Num?
    ensures Decide(count, max).Admitted? <==> count.value.value.n <= max
    ensures Decide(count, max).Refused? <==> count.value.value.n > max
  {
  }

  /** What the gate did: the new `results_df`, the messages, the queries run, the envelopes sent, the script left. */
  datatype GateRun = GateRun(
    resultsDf: Option<seq<Value>>,
    notices: seq<Notice>,
    runs: seq<string>,
    sent: seq<Invocation>,
    rest: seq<Reply>)

  /** The count read back from the count query's result. */
  function CountOf(outcome: Result<Value, FlexlineError>, countOf: Value -> Raises<Value>)
    : Result<Raises<Value>, FlexlineError>
  {
    match outcome
    case Err(e) => Err(e)
    case Ok(v) => Ok(countOf(v))
  }

  /**
   * The gate against the script `replies`, with `results_df` at `resultsDf`
   * before: the count query, then the original query only when the count is
   * admitted.
   */
  function GateSpec(flex: FlexlineClient, countQuery: string, countOf: Value -> Raises<Value>, max: int,
                    sql: string, replies: seq<Reply>, resultsDf: Option<seq<Value>>): (g: GateRun)
    ensures 1 <= |g.runs| <= 2 && g.runs[0] == countQuery
  {
    Gated(flex, countQuery, flex.RunSpec(countQuery, replies), countOf, max, sql, resultsDf)
  }

  /** The gate once the count query has run as `t1`. */
  function Gated(flex: FlexlineClient, countQuery: string, t1: RunTrace, countOf: Value -> Raises<Value>, max: int,
                 sql: string, resultsDf: Option<seq<Value>>): (g: GateRun)
    ensures 1 <= |g.runs| <= 2 && g.runs[0] == countQuery
    ensures |g.runs| == 2 <==> Decide(CountOf(t1.outcome, countOf), max).Admitted?
    ensures |g.runs| == 1 ==> g.sent == t1.sent && g.rest == t1.rest
    ensures |g.runs| == 2 ==> g.runs[1] == sql && |g.sent| > |t1.sent| && g.sent[..|t1.sent|] == t1.sent
  {
    match Decide(CountOf(t1.outcome, countOf), max)
    case Failed(n) => GateRun(resultsDf, [n], [countQuery], t1.sent, t1.rest)
    case Refused(c) => GateRun(None, [TooManyRecords(c)], [countQuery], t1.sent, t1.rest)
    case Admitted(c) =>
      var t2 := flex.RunSpec(sql, t1.rest);
      var s := Shown(c, t2.outcome, resultsDf);
      GateRun(s.0, s.1, [countQuery, sql], t1.sent + t2.sent, t2.rest)
  }

  /**
   * An admitted count `c`, then the outcome of the original query: the new
   * `results_df` and the messages shown.
   */
  function Shown(c: Value, outcome: Result<Value, FlexlineError>, resultsDf: Option<seq<Value>>)
    : (s: (Option<seq<Value>>, seq<Notice>))
    ensures 2 <= |s.1| && s.1[0] == Fetching(c)
    ensures outcome.Err? ==> s.0 == resultsDf && s.1[|s.1| - 1] == LambdaFailed(outcome.error)
    ensures outcome.Ok? ==> s.0 == ToTable(outcome.value) && s.1[1] == Executed
  {
    match outcome
    case Err(e) => (resultsDf, [Fetching(c), LambdaFailed(e)])
    case Ok(v) =>
      var table := ToTable(v);
      (table, [Fetching(c), Executed] + (if table.None? then [NotATable(v)] else []))
  }

  /** The gate as the pages run it, catching every failure as a message. */
  method RunGate(session: SessionState, flex: FlexlineClient, countQuery: string,
                 countOf: Value -> Raises<Value>, max: int, sql: string)
    modifies session, flex
    ensures var g := GateSpec(flex, countQuery, countOf, max, sql, old(flex.replies), old(session.resultsDf));
      session.resultsDf == g.resultsDf && session.notices == old(session.notices) + g.notices &&
      flex.runs == old(flex.runs) + g.runs && flex.sent == old(flex.sent) + g.sent && flex.replies == g.rest
    ensures session.aiResponse == old(session.aiResponse)
  {
    ghost var t1 := flex.RunSpec(countQuery, flex.replies);
    var countResults := flex.Run(countQuery);
    GateOn(session, flex, countQuery, t1, countResults, countOf, max, sql, old(flex.sent), old(flex.runs));
  }

  /**
   * The gate once the count query has run as `t1`, `sentBefore` and
   * `runsBefore` being what the client had sent and run before it.
   */
  method GateOn(session: SessionState, flex: FlexlineClient, countQuery: string, ghost t1: RunTrace,
                countResults: Result<Value, FlexlineError>, countOf: Value -> Raises<Value>, max: int, sql: string,
                ghost sentBefore: seq<Invocation>, ghost runsBefore: seq<string>)
    requires countResults == t1.outcome && flex.replies == t1.rest
    requires flex.sent == sentBefore + t1.sent && flex.runs == runsBefore + [countQuery]
    modifies session, flex
    ensures var g := Gated(flex, countQuery, t1, countOf, max, sql, old(session.resultsDf));
      session.resultsDf == g.resultsDf && session.notices == old(session.notices) + g.notices &&
      flex.runs == runsBefore + g.runs && flex.sent == sentBefore + g.sent && flex.replies == g.rest
    ensures session.aiResponse == old(session.aiResponse)
  {
    var gate := Decide(CountOf(countResults, countOf), max);
    if gate.Failed? {
      session.notices := session.notices + [gate.notice];
      return;
    }
    if gate.Refused? {
      session.notices := session.notices + [TooManyRecords(gate.count)];
      session.resultsDf := None;
      return;
    }
    var results := flex.Run(sql);
    ghost var t2 := flex.RunSpec(sql, t1.rest);
    Show(session, gate.count, results);
    Concat3(sentBefore, t1.sent, t2.sent);
    assert runsBefore + [countQuery] + [sql] == runsBefore + [countQuery, sql];
  }

  lemma Concat3<T>(a: seq<T>, b: seq<T>, c: seq<T>)
    ensures a + b + c == a + (b + c)
  {
  }

  /** The admitted branch: show the outcome of the original query. */
  method Show(session: SessionState, count: Value, results: Result<Value, FlexlineError>)
    modifies session
    ensures var s := Shown(count, results, old(session.resultsDf));
      session.resultsDf == s.0 && session.notices == old(session.notices) + s.1
    ensures session.aiResponse == old(session.aiResponse)
  {
    session.notices := session.notices + [Fetching(count)];
    if results.Err? {
      session.notices := session.notices + [LambdaFailed(results.error)];
      return;
    }
    session.notices := session.notices + [Executed];
    var table := ToTable(results.value);
    if table.None? {
      session.notices := session.notices + [NotATable(results.value)];
    }
    session.resultsDf := table;
  }

  // ---------------------------------------------------------------------------
  // Properties of the gate

  /** The count query always runs first, and nothing but it runs when the count is not admitted. */
  lemma CountQueryRunsFirst(flex: FlexlineClient, countQuery: string, countOf: Value -> Raises<Value>, max: int,
                            sql: string, replies: seq<Reply>, resultsDf: Option<seq<Value>>)
    ensures var g := GateSpec(flex, countQuery, countOf, max, sql, replies, resultsDf);
      var gate := Decide(CountOf(flex.RunSpec(countQuery, replies).outcome, countOf), max);
      g.runs[0] == countQuery && (!gate.Admitted? ==> g.runs == [countQuery])
  {
  }

  /** A refused count never runs the original query and clears the table. */
  lemma RefusedNeverRunsQuery(flex: FlexlineClient, countQuery: string, countOf: Value -> Raises<Value>, max: int,
                              sql: string, replies: seq<Reply>, resultsDf: Option<seq<Value>>)
    requires Decide(CountOf(flex.RunSpec(countQuery, replies).outcome, countOf), max).Refused?
    ensures var g := GateSpec(flex, countQuery, countOf, max, sql, replies, resultsDf);
      g.runs == [countQuery] && g.resultsDf.None?
  {
  }

  /** An admitted count runs the original query, unchanged, exactly once. */
  lemma AdmittedRunsQueryOnce(flex: FlexlineClient, countQuery: string, countOf: Value -> Raises<Value>, max: int,
                              sql: string, replies: seq<Reply>, resultsDf: Option<seq<Value>>)
    requires Decide(CountOf(flex.RunSpec(countQuery, replies).outcome, countOf), max).Admitted?
    ensures GateSpec(flex, countQuery, countOf, max, sql, replies, resultsDf).runs == [countQuery, sql]
  {
  }

  /**
   * A successful run of the original query becomes its rows: a non-empty
   * list row by row, a dict as one row, anything else no table.
   */
  lemma ExecutedResultIsShaped(flex: FlexlineClient, countQuery: string, countOf: Value -> Raises<Value>, max: int,
                               sql: string, replies: seq<Reply>, resultsDf: Option<seq<Value>>)
    requires var t1 := flex.RunSpec(countQuery, replies);
      Decide(CountOf(t1.outcome, countOf), max).Admitted? && flex.RunSpec(sql, t1.rest).outcome.Ok?
    ensures var t1 := flex.RunSpec(countQuery, replies);
      var v := flex.RunSpec(sql, t1.rest).outcome.value;
      GateSpec(flex, countQuery, countOf, max, sql, replies, resultsDf).resultsDf == ToTable(v)
  {
  }

  /** A failure is reported as the last message and leaves `results_df` as it was. */
  lemma FailureIsReported(flex: FlexlineClient, countQuery: string, countOf: Value -> Raises<Value>, max: int,
                          sql: string, replies: seq<Reply>, resultsDf: Option<seq<Value>>)
    ensures var g := GateSpec(flex, countQuery, countOf, max, sql, replies, resultsDf);
      var gate := Decide(CountOf(flex.RunSpec(countQuery, replies).outcome, countOf), max);
      gate.Failed? ==> g.notices == [gate.notice] && g.resultsDf == resultsDf
    ensures var g := GateSpec(flex, countQuery, countOf, max, sql, replies, resultsDf);
      var t1 := flex.RunSpec(countQuery, replies);
      var t2 := flex.RunSpec(sql, t1.rest);
      Decide(CountOf(t1.outcome, countOf), max).Admitted? && t2.outcome.Err? ==>
        g.notices[|g.notices| - 1] == LambdaFailed(t2.outcome.error) && g.resultsDf == resultsDf
  {
  }
}
