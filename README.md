# Flexline Text2SQL: a Dafny model of the query pipeline

This project models the core of a Streamlit application with three steps:

1. A user asks a question.
2. A text-to-SQL service answers with a read-only SQL query.
3. The query runs against a legacy SQL Server backend that sits behind three AWS Lambda functions. Before the real query runs, a count query measures the result size, and the query is refused above a threshold.

The model covers these parts:

- **`generate_count_query`** (`app/flexline/utils.py`), module `CountQuery`. It trims the input and drops one trailing `;`. It splits off a leading `WITH` block at the first `)` followed by `SELECT`, and cuts everything from the first word-bounded `ORDER BY` of the main query to the end. It wraps the rest as `SELECT COUNT(*) AS total_rows FROM (…) AS subq` and re-prepends the block.
- **The older inline rewriter of `main.py`** (lines 133-164), module `App`, with its count extraction and 20000-row gate (lines 166-204). It cuts everything from the first `ORDER BY`, `LIMIT` or `OFFSET` that has whitespace before and after it to the end. For `WITH` text it replaces the column list of the last `SELECT`. Any other text it wraps as `… as record_count FROM (…) as subquery`.
- **The page `app/ui/main_page.py`**, module `MainPage`. It covers the question step (lines 22-30) and the execution step: the count read under `total_rows`, and the 10000-row gate.
  - The gate both pages share is module `Pages`: count query, decision, then the original query and result shaping. The session state it writes is the class `Pages.SessionState`. Its fields are `results_df`, `ai_response` and the messages shown.
- **`FlexlineClient`** (`app/flexline/client.py`), module `Flexline`. `run` chains `Sbl_Authenticate` → `Sbl_GetRoute` → `FlexlineData`. `_invoke_lambda` turns every failure into a `FlexlineError` and succeeds only on `statusCode == 200`.
  - The Lambda service is an oracle: the client holds a script of replies and consumes one per invocation, and it logs every envelope it sends.
  - The route record `QueryInfo` (`app/flexline/schemas.py`) is module `Schemas`. It has eleven required string fields, `server` read from the input key `serverSQL`, and an optional `command`.
- **`Text2SQLClient`** (`app/text2sql/client.py`), module `Text2Sql`. It holds a token and stored credentials, and makes a question request with a read-only check. HTTP is an oracle in the same way.

Shared modules:

- `Wrappers`: `Option`, `Result`, and the reply script left after one reply is taken.
- `Text`: ASCII versions of `str.strip`, `\s`, `\w`, `\b`, case-insensitive matching, `str.upper`, `str.find` and `str.rfind`.
- `Json`: decoded JSON values with Python truthiness, `dict.get`, comparison with an `int`, and the `pd.DataFrame` shaping of a result.

Each regular expression is a scanning function that finds the leftmost match. A ghost predicate states what the pattern matches, and a lemma proves that the scanner and the pattern agree.

Methods that change state (client fields, the reply script, the request log, the session state) are stated against specification functions of the old state. Examples are `Flexline.FlexlineClient.RunSpec` and `Pages.GateSpec`. The lemmas are proved about those functions.

Where the documented intent and the code differ, the model follows the code:

- `get_sql` is documented as re-authenticating once and retrying after an HTTP 401. In the code, a `requests.Response` is truthy only when it is ok, so `response and response.status_code == 401` (app/text2sql/client.py:50) is never true. The retry and the failed-status log (line 69) are unreachable. The model proves this (`Text2Sql.RetryBranchIsDead`, `Text2Sql.FailureLogBranchIsDead`), and `GetSql` has `assert false` in both branches.
- `generate_count_query` (app/flexline/utils.py:45-49) wraps the main query as `SELECT COUNT(*) AS total_rows FROM (`, a newline and four spaces, the main query, a newline, then `) AS subq`, and a final `;`. The model keeps this whitespace (`CountQuery.WrapHead` and `CountQuery.WrapTail`). It cuts at `ORDER BY` only, not at `LIMIT` or `OFFSET`.
- The comments at app/flexline/utils.py:39 and main.py:136 promise to drop a clause at the very end of the query. The patterns are anchored only at the end (`$`), so the cut starts at the FIRST match anywhere and runs to the end, even when that match sits inside a subquery or, in `main.py`, inside a CTE. For example, a main query that reads from `(SELECT TOP 5 * FROM t ORDER BY x) s WHERE …` loses everything from that `ORDER BY` on. The model follows the code (`CountQuery.StripOrderBy`, `App.CutTrailingClauses`).
- `main.py:145` tests `startswith("WITH")`, which requires no word boundary, while `utils.py:27` matches `^\s*WITH\b` (ignoring case), which allows leading whitespace and requires a word boundary after WITH. The two rewriters are modelled separately.

## Model

| member | source | states |
|---|---|---|
| Text.Strip | app/flexline/utils.py:20 | `str.strip()`: the result is the input between its leading and its trailing whitespace run, and it neither starts nor ends with whitespace |
| Text.LStrip | app/flexline/utils.py:36 | `lstrip()`: the result is a suffix of the input, only whitespace is removed, and it does not start with whitespace |
| Text.RStrip | app/flexline/utils.py:42 | `rstrip()`: the result is a prefix of the input, only whitespace is removed, and it does not end with whitespace |
| Text.UpperString | main.py:145 | `upper()` on ASCII text keeps the length and upper-cases each character |
| Text.PyFind | main.py:150-152 | `str.find(kw, start)`: the least match at or after the (Python-normalised) start, or -1 exactly when there is none |
| Text.PyRFind | main.py:147 | `str.rfind(kw)`: a match with no match after it, or -1 |
| Text.UpperMatchIsCaseInsensitive | main.py:145-152 | a keyword is found in the upper-cased text at `i` exactly when it occurs at `i` ignoring case |
| Json.Truthy | app/ui/main_page.py:55-59 | `bool(v)`: None, False, 0 and empty strings, lists and dicts are falsy, everything else truthy |
| Json.GetOr | app/ui/main_page.py:60 | `d.get(key, default)`: the value bound to the key's first binding, or the default when the key is absent |
| Json.Lookup | app/flexline/client.py:63 | `dict.get`: a key is found exactly when some field has it, and the value found is bound to it |
| Json.GreaterThan | app/ui/main_page.py:62 | `record_count > MAX`: numbers compare, booleans compare as 0/1, anything else raises (None) |
| Json.BoolComparesAsNumber | app/ui/main_page.py:62 | `True > MAX` and `False > MAX` give what `1 > MAX` and `0 > MAX` give |
| Json.ToTable | app/ui/main_page.py:75-84 | a non-empty list becomes its rows, a dict one row, anything else no table |
| CountQuery.CleanUp | app/flexline/utils.py:20-22 | the stripped text with one trailing `;` removed exactly when it ends with `;` |
| CountQuery.OpensWithWithAgreesWithRegex | app/flexline/utils.py:27 | the scanner agrees with `^\s*WITH\b` (ignoring case) in both directions |
| CountQuery.OpensWithWith | app/flexline/utils.py:27 | the scanner behind `re.match(r"^\s*WITH\b", q, re.I)`: whitespace skipped, then WITH in any case and a word boundary; `OpensWithWithAgreesWithRegex` proves it is that pattern |
| CountQuery.CteBoundaryAt | app/flexline/utils.py:31 | a `)`, the whitespace run after it, then SELECT in any case; `CteBoundaryAgreesWithRegex` proves it is the pattern `\)\s*SELECT` |
| CountQuery.CteBoundaryAgreesWithRegex | app/flexline/utils.py:31 | the scanner agrees with `\)\s*SELECT` (ignoring case) in both directions |
| CountQuery.FindCteBoundary | app/flexline/utils.py:31 | `re.search`: the leftmost boundary, none before it, or none at all |
| CountQuery.CteSplitPoint | app/flexline/utils.py:27-34 | a split point exists exactly when the text opens with the word WITH and has a boundary, and it is the first boundary |
| CountQuery.SplitCte | app/flexline/utils.py:25-36 | without a split the main query is the text itself; with one, the block is the text up to and including its `)`, and the main query is the left-stripped rest |
| CountQuery.OrderByAgreesWithRegex | app/flexline/utils.py:41 | the scanner agrees with `\bORDER\s+BY\b` (ignoring case) in both directions |
| CountQuery.OrderByAt | app/flexline/utils.py:41 | a word boundary, ORDER, a non-empty whitespace run, BY and a word boundary, in any case; `OrderByAgreesWithRegex` proves it is the pattern |
| CountQuery.FindOrderBy | app/flexline/utils.py:40-41 | the leftmost `ORDER BY`, with none before it |
| CountQuery.StripOrderBy | app/flexline/utils.py:40-42 | the result is a prefix of the main query: right-stripped whole without an `ORDER BY`, otherwise the right-stripped text before the first one |
| CountQuery.GenerateCountQuery | app/flexline/utils.py:44-49 | the output always ends with `;` |
| CountQuery.Wrap | app/flexline/utils.py:45 | `WrapHead + main + WrapTail`: `SELECT COUNT(*) AS total_rows FROM (`, newline, four spaces, the main query, newline, `) AS subq` |
| CountQuery.WrappedStartsWithCount | app/flexline/utils.py:45 | a wrapped query starts with `SELECT COUNT(*)` |
| CountQuery.WrappedHasAlias | app/flexline/utils.py:45 | a wrapped query, after any prefix, has `COUNT(*) AS total_rows` at a fixed offset |
| CountQuery.CountQueryParts | app/flexline/utils.py:44-49 | the output is the block line (block and newline, or nothing), then the count wrapper around the cut main query, then `;` |
| CountQuery.NoCteWrapsWholeQuery | app/flexline/utils.py:45-49 | without a WITH block the output is the wrapped, cut, cleaned text alone, starting `SELECT COUNT(*)` |
| CountQuery.SplitAtFirstBoundary | app/flexline/utils.py:31-34 | only the first `)`-SELECT boundary can be the split point |
| CountQuery.CteBlockKeptVerbatim | app/flexline/utils.py:25-47 | with a WITH block, the output is the block unchanged, a newline, then the wrapped main query; so it starts with the trimmed input up to the block's `)`, and nothing inside the block (an ORDER BY, say) is altered |
| CountQuery.PlainQueryIsWrappedAsIs | app/flexline/utils.py:19-49 | text without a WITH block or an ORDER BY is only cleaned and right-stripped before it is wrapped |
| CountQuery.CountUnderTotalRowsAlias | app/flexline/utils.py:45 | the output always contains `COUNT(*) AS total_rows`, the alias the page reads |
| Schemas.FieldViolation | app/flexline/schemas.py:7-17 | a required field gives no violation exactly when it is a string |
| Schemas.FieldViolations | app/flexline/schemas.py:7-17 | no violations exactly when every required key holds a string; every violation is a missing or non-string required key |
| Schemas.CommandViolation | app/flexline/schemas.py:18 | `command` is accepted exactly when absent, null or a string |
| Schemas.CommandOf | app/flexline/schemas.py:18 | `command` defaults to None when absent or null, and otherwise is the string given |
| Schemas.Validate | app/flexline/schemas.py:6-18 | a record exactly when the input is acceptable (an object, eleven string fields, a valid `command`); a rejection lists at least one violation |
| Schemas.Build | app/flexline/schemas.py:6-18 | each field of the record is the string under its input key |
| Schemas.ValidateReadsInputKeys | app/flexline/schemas.py:7-18 | each validated field is the string under its input key; `server` is read from `serverSQL`; `command` is the optional value |
| Schemas.ValidateReportsMissing | app/flexline/schemas.py:7-17 | a rejected object reports a required key as missing exactly when it is absent |
| Schemas.MissingReported | app/flexline/schemas.py:7-17 | among the required-field violations, a key is reported missing exactly when it is absent |
| Schemas.Dump | app/flexline/client.py:101 | `model_dump(by_alias=True, exclude_none=True)`: the eleven fields under their field names, in order, then `command` only when set |
| Schemas.DumpRenamesServer | app/flexline/schemas.py:13 | the dump carries the server under `server` and never under `serverSQL` |
| Schemas.DumpCarriesCommand | app/flexline/client.py:100-101 | once `command` is set, the dumped payload always contains it |
| Schemas.DumpDoesNotRevalidate | app/flexline/schemas.py:13 | a dumped record does not validate again: `serverSQL` is reported missing |
| Flexline.RemoveSemicolons | app/flexline/client.py:100 | `replace(";", "")`: no `;` is left, and nothing is added |
| Flexline.RemoveSemicolonsConcat | app/flexline/client.py:100 | removal distributes over concatenation, so the other characters keep their order |
| Flexline.RemoveSemicolonsKeepsClean | app/flexline/client.py:100 | text without `;` is unchanged |
| Flexline.Command | app/flexline/client.py:100 | the command contains no `;` and ends with ` for json path` |
| Flexline.TokenOf | app/flexline/client.py:81 | a dict with `token` gives its value; any other result (a dict without it included) is its own token |
| Flexline.AuthOutcome | app/flexline/client.py:81-86 | a token exactly when the invocation succeeded with a truthy token; an invocation failure passes through; otherwise `NoToken` |
| Flexline.TokenlessDictIsItsOwnToken | app/flexline/client.py:81 | a non-empty dict without `token` is accepted as the token itself |
| Flexline.FalsyTokenIsRejected | app/flexline/client.py:82-85 | the empty dict, or a falsy `token`, is rejected with `NoToken` |
| Flexline.RouteOutcome | app/flexline/client.py:93-96 | a route exactly when the result validates as `QueryInfo`; otherwise the invocation error or the parse-route error with the violations |
| Flexline.ExecuteBody | app/flexline/client.py:100-101 | the execute payload is a non-empty dict whose `command` is the cleaned query with ` for json path` |
| Flexline.FlexlineClient.constructor | app/flexline/client.py:25-41 | a client with its credentials, an empty log and the given reply script |
| Flexline.FlexlineClient.Envelope | app/flexline/client.py:50-54 | the envelope carries the encoded API key and the parameters, and the body only when it is truthy |
| Flexline.FlexlineClient.InvokeOutcome | app/flexline/client.py:56-74 | a result only with a decoded payload whose `statusCode` is 200; with status 200 the result is the decoded `body` string, `{}` when `body` is missing, and a failure when `body` is not a string or not JSON; every failure is `FlexlineError` naming the function; a raising `invoke` is a transport failure |
| Flexline.FlexlineClient.Invoke | app/flexline/client.py:47-74 | one envelope appended to the log, one reply consumed, the outcome as above |
| Flexline.FlexlineClient.GetAuthToken | app/flexline/client.py:76-86 | invokes `Sbl_Authenticate` with user and password and returns the token outcome |
| Flexline.FlexlineClient.GetRoute | app/flexline/client.py:88-96 | invokes `Sbl_GetRoute` with user id and token and returns the route outcome |
| Flexline.FlexlineClient.ProcessQuery | app/flexline/client.py:98-102 | invokes `FlexlineData` with the dumped record, `command` set |
| Flexline.FlexlineClient.AfterAuth | app/flexline/client.py:104-108 | stages are sent in order with the API key; a failed authentication sends exactly one envelope and is the outcome; otherwise the route stage follows |
| Flexline.FlexlineClient.AfterRoute | app/flexline/client.py:107-108 | a failed route call ends the run after its envelope; otherwise the execute stage follows and consumes one more reply |
| Flexline.FlexlineClient.Execute | app/flexline/client.py:98-102 | the execute stage sends exactly the data envelope, consumes one reply, and returns the outcome of that reply |
| Flexline.FlexlineClient.RunSpec | app/flexline/client.py:104-108 | a run sends one to three envelopes |
| Flexline.FlexlineClient.RouteAndProcess | app/flexline/client.py:107-108 | the route-then-execute part of a run matches its specification |
| Flexline.FlexlineClient.Run | app/flexline/client.py:104-108 | `run` returns the specified outcome, logs the specified envelopes and consumes the specified replies |
| Flexline.FlexlineClient.RunInvokesStagesInOrder | app/flexline/client.py:104-108 | the i-th envelope goes to the i-th of Sbl_Authenticate, Sbl_GetRoute, FlexlineData, each at most once, all with the encoded key |
| Flexline.FlexlineClient.RunStopsAtFirstFailure | app/flexline/client.py:104-108 | a run that stops before the data function has failed, a successful run reached it, and authentication failing is exactly the one-envelope run |
| Flexline.FlexlineClient.RunSendsCredentialsThenToken | app/flexline/client.py:76-92 | authentication sends `user`/`pass` and no body; the route call sends `userId` and the token received |
| Flexline.FlexlineClient.RunExecutesCommand | app/flexline/client.py:98-102 | the data function receives `command` = cleaned query + ` for json path`, with no `;` |
| Flexline.FlexlineClient.RunReturnsDataOutcome | app/flexline/client.py:102-108 | a run that reaches `FlexlineData` returns what that third invocation returns |
| Flexline.FlexlineClient.RunConsumesOneReplyPerInvocation | app/flexline/client.py:56-60 | a run consumes exactly one reply per envelope it sends |
| Flexline.FlexlineClient.StatusOtherThan200Fails | app/flexline/client.py:63-69 | a decoded reply whose `statusCode` is not 200 is always an error |
| Text2Sql.IsOk | app/text2sql/client.py:29 | `raise_for_status()` raises for exactly the statuses 400 to 599 |
| Text2Sql.ResponseTruthy | app/text2sql/client.py:50 | `bool(response)`: a response is truthy exactly when it exists and is ok |
| Text2Sql.AuthEffect | app/text2sql/client.py:27-39 | True exactly for an ok JSON-object reply with a truthy `access_token`; the token is assigned (even falsy) exactly for an ok object reply; a non-object body escapes |
| Text2Sql.FinalOutcome | app/text2sql/client.py:60-74 | an absent or non-ok response gives None; a result is a truthy response whose object has a truthy `read_only`, and such a response always gives it |
| Text2Sql.RetryBranchIsDead | app/text2sql/client.py:50-58 | a truthy response is never a 401, so the re-authentication never happens |
| Text2Sql.FailureLogBranchIsDead | app/text2sql/client.py:69-72 | a truthy response is always ok, so the failed-status log is never reached |
| Text2Sql.NotReadOnlyIsRejected | app/text2sql/client.py:61-67 | an ok response without a truthy `read_only` gives None |
| Text2Sql.Text2SQLClient.constructor | app/text2sql/client.py:11-17 | no token and no stored credentials |
| Text2Sql.Text2SQLClient.Authenticate | app/text2sql/client.py:19-39 | one token request; the result and token as in `AuthEffect`; credentials stored exactly on success and otherwise unchanged |
| Text2Sql.Text2SQLClient.MakeRequest | app/text2sql/client.py:76-90 | no request and None without a token; otherwise one request to `<base>/api/ai/<workspace>` with the current token and the question |
| Text2Sql.Text2SQLClient.GetSql | app/text2sql/client.py:41-74 | at most one question request and no re-authentication; the result is `FinalOutcome` of the response; one reply consumed exactly when a request was made; token and credentials unchanged; a result is always read-only |
| Pages.GateSpec | app/ui/main_page.py:49-89 | the gate against a reply script: the count query always runs first, and at most two queries run |
| Pages.Gated | app/ui/main_page.py:62-89 | once the count query has run: a second query, the original one, runs exactly when the count is admitted; otherwise nothing more is sent or consumed |
| Pages.Shown | app/ui/main_page.py:68-89 | an admitted run first reports the count; a Lambda failure is reported last and keeps `results_df`, a success reports execution and sets `results_df` to the shaped rows |
| Pages.Decide | app/ui/main_page.py:62-70 | refused exactly when the count compares above the threshold, admitted exactly when it compares at or below; a failed count query or extraction, or an incomparable count, is reported |
| Pages.DecideIsThreshold | app/ui/main_page.py:62 | a numeric count is admitted exactly when at most the threshold and refused exactly when above |
| Pages.Show | app/ui/main_page.py:68-87 | an admitted run reports the count, then either the Lambda error (table kept) or success and the shaped rows |
| Pages.RunGate | app/ui/main_page.py:49-89 | the gate runs as specified: session state, messages, queries run, envelopes and replies all follow `GateSpec` |
| Pages.GateOn | app/ui/main_page.py:60-89 | once the count query has run, the rest of the gate follows `Gated`: the decision, then either a message or the original query and its outcome |
| Pages.CountQueryRunsFirst | app/ui/main_page.py:51-72 | the count query is always run first, and alone unless the count is admitted |
| Pages.RefusedNeverRunsQuery | app/ui/main_page.py:62-66 | a refused count never runs the original query and clears `results_df` |
| Pages.AdmittedRunsQueryOnce | app/ui/main_page.py:67-72 | an admitted count runs the original query, unchanged, exactly once after the count query |
| Pages.ExecutedResultIsShaped | app/ui/main_page.py:75-84 | a successful run of the original query sets `results_df` to its shaped rows |
| Pages.FailureIsReported | app/ui/main_page.py:86-89 | a failure is caught and reported as the last message, and `results_df` keeps its value |
| MainPage.RecordCount | app/ui/main_page.py:54-60 | the first row's `total_rows` (0 when absent) for a non-empty list with a truthy first row, 0 for any other result; a non-dict first row raises |
| MainPage.CountIsReadUnderRewriterAlias | app/ui/main_page.py:60 | a count the rewriter's query reports under `total_rows` is the count read back |
| MainPage.RunQuery | app/ui/main_page.py:47-89 | a non-string `sql_query` is reported and nothing runs; otherwise the gate with `generate_count_query(sql_query)`, `total_rows` and 10000 |
| MainPage.QueriesRun | app/ui/main_page.py:51-72 | the queries run are the rewriter's count query, then possibly `sql_query` itself |
| MainPage.AboveMaxIsRefused | app/ui/main_page.py:62-66 | a count above 10000 runs only the count query, clears `results_df` and warns with the count |
| MainPage.AtMostMaxRunsOriginal | app/ui/main_page.py:67-72 | a count of at most 10000 runs `sql_query`, ORDER BY intact, exactly once |
| MainPage.SubmitQuestion | app/ui/main_page.py:22-30 | an empty question does nothing; otherwise `results_df` is cleared, `ai_response` becomes the response or None (with an error shown), and an exception from `get_sql` escapes; the text-to-SQL client consumes one reply exactly when it holds a token |
| MainPage.KeptResponseIsReadOnly | app/ui/main_page.py:26 | a response kept as `ai_response` is a truthy dict with a truthy `read_only` |
| App.KeywordEnd | main.py:138 | the end of `ORDER\s+BY`, `LIMIT` or `OFFSET` starting at a position, past that position and within the text |
| App.TrailingClauseAt | main.py:137-141 | a whitespace run, a keyword, then whitespace; `TrailingClauseAgreesWithRegex` proves it is the pattern |
| App.TrailingClauseAgreesWithRegex | main.py:137-141 | the scanner agrees with the pattern (whitespace, then `ORDER BY`, `LIMIT` or `OFFSET` ignoring case, then whitespace and anything to the end) in both directions |
| App.FindTrailingClause | main.py:137-141 | the leftmost match, none before it, or none at all |
| App.CutTrailingClauses | main.py:137-142 | the result is a prefix of the text: the whole text without a match, otherwise the text before the first match |
| App.CountBase | main.py:133-142 | the text the count query is built from: stripped, trailing clauses cut, stripped again; ASCII, no longer than the input, starting and ending with non-whitespace |
| App.CountQueryFor | main.py:145-164 | the WITH branch or the wrap on the prepared text; its cases are stated by `NonCteIsWrapped`, `CteFinalSelectReplaced`, `CteWithoutFromIsKept` and `CteWithoutSelectIsKept` |
| App.InlineCountQuery | main.py:133-164 | the inline count query: `CountQueryFor` of `CountBase` of the input |
| App.StartsWithWith | main.py:145 | the CTE branch is taken exactly when the text starts with WITH in any case, word boundary or not |
| App.NonCteIsWrapped | main.py:162-164 | other text is wrapped whole and verbatim as `SELECT COUNT(*) as record_count FROM (` … `) as subquery` |
| App.CteFinalSelectReplaced | main.py:145-161 | WITH text is rebuilt from the text before its last SELECT, `SELECT COUNT(*) `, and the text from the first FROM after it |
| App.CteWithoutFromIsKept | main.py:154 | WITH text with no FROM after its last SELECT is left as it is |
| App.CteWithoutSelectIsKept | main.py:154 | WITH text with no SELECT is left as it is |
| App.FirstValueCount | main.py:169-176 | the first value of the first row for a non-empty list with a truthy first row, 0 for any other result; a non-dict first row raises |
| App.CountIsReadByPosition | main.py:176 | the count is read by position, whatever alias the count query gives it |
| App.RunQuery | main.py:133-204 | the gate with the inline count query, the first value and 20000 |
| App.AboveMaxIsRefused | main.py:179-183 | a count above 20000 runs only the count query and clears `results_df` |
| App.AtMostMaxRunsOriginal | main.py:185-192 | a count of at most 20000 runs the original, unrewritten `sql_query` exactly once |

## Left out

- Streamlit is not modelled: rendering, forms, spinners, `st.stop` / `st.rerun`, the password gate, client initialisation and the results display and export (main.py:10-125 and 211-248, app/ui/main_page.py:1-21, 32-35 and 40-46). Messages are recorded as `Pages.Notice` values, not as text.
- boto3, `requests` and logging are oracles or left out. The clients consume scripted replies and log requests. Log messages and the text of `FlexlineError` messages are not modelled; the error is identified by its cause.
- Base64 and `json.loads` are functions the Flexline client is given. `json.dumps` of the envelope is modelled as the `Invocation` record it encodes.
- JSON numbers are integers. Python floats are not modelled, so a `statusCode` of `200.0`, which Python accepts as 200, is rejected by `Flexline.FlexlineClient.InvokeOutcome`.
- Unicode is not modelled. `\s`, `\w`, `\b`, `IGNORECASE` and `str.upper()` are given their ASCII meaning.
- App.RunQuery: requires ASCII text, because `upper()` outside ASCII can change the length the code relies on when it reuses positions.
- App.RunQuery: takes `sql_query` as a string. `str()` of a non-string value (main.py:133) is not modelled.
- Text2Sql.Text2SQLClient.Authenticate: a body that is not JSON takes the caught `RequestException` path (app/text2sql/client.py:30 and 37). This assumes `requests` 2.27 or later, where `JSONDecodeError` is a `RequestException`. With an older `requests` the error would escape `authenticate`, and that is not modelled.
- Duplicate keys in a JSON object are not modelled. `Json.Lookup` takes the first binding, while `json.loads` keeps the last.
- `query_info.command` is assigned in place (app/flexline/client.py:100). The model sets it on a copy of the record; aliasing of the record is not modelled.
- `pd.DataFrame` construction errors and the `{:,}` formatting of the count are not modelled. `results_df` is the list of rows.
- Text2Sql.Text2SQLClient.GetSql: the re-authentication and retry branch (app/text2sql/client.py:50-58) is proved unreachable rather than modelled. The properties of that branch are vacuous: at most two requests, one re-authentication with the stored credentials, and None when it fails. The model proves the stronger fact that at most one question request and no re-authentication ever happen.
- Reading `sql_query` and `explanation` out of `ai_response` (app/ui/main_page.py:36-44) is the caller's step: `MainPage.RunQuery` takes the value of `sql_query`.
- Worked examples with literal SQL text are not proved, because proofs about long string literals are too costly for the solver. The rewriters are specified for all inputs instead.
- Idempotence of the rewriter on its own output is not proved. The code does not guarantee it.
