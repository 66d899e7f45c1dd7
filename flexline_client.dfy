/**
 * `FlexlineClient` of app/flexline/client.py: the authenticated three-stage
 * pipeline authenticate -> get route -> execute over AWS Lambda.
 *
 * The Lambda service is an oracle: a script of replies the client consumes
 * one per invocation (an exhausted script behaves as a failing `invoke`),
 * and a log of the request envelopes it sent. Base64 and JSON decoding are
 * functions the client is given.
 */
module Flexline {
  import opened Wrappers
  import opened Json
  import opened Schemas

  /** What one `invoke` call gives back. */
  datatype Reply =
    | InvokeRaised              // boto3 raised: network, credentials, unknown function ...
    | Returned(payload: string) // the text of the response's `Payload` stream

  /** What an invocation failed on. */
  datatype Cause =
    | Transport
    | PayloadNotJson
    | PayloadNotObject
    | BodyNotText
    | BodyNotJson
    | BadStatus(status: Value, body: Value)

  /** `FlexlineError`, by the message it is raised with. */
  datatype FlexlineError =
    | InvokeFailed(stage: Stage, cause: Cause)
    | NoToken
    | RouteInvalid(violations: seq<Violation>)

  /** The request envelope of one invocation: authorization header, query parameters, body. */
  datatype Invocation = Invocation(
    stage: Stage,
    authorization: string,
    params: Option<seq<(string, Value)>>,
    body: Option<Value>)

  /** The Lambda functions the client invokes. */
  datatype Stage = Authenticate | GetRoute | FlexlineData {
    /** The function name passed to `invoke`. */
    function Name(): string {
      match this
      case Authenticate => "Sbl_Authenticate"
      case GetRoute => "Sbl_GetRoute"
      case FlexlineData => "FlexlineData"
    }
  }

  /** The three functions `run` invokes, in order. */
  const Stages: seq<Stage> := [Authenticate, GetRoute, FlexlineData]

  const JsonPathSuffix: string := " for json path"

  /** The reply the next invocation gets; past the end of the script, `invoke` raises. */
  function NextReply(replies: seq<Reply>): Reply {
    if replies == [] then InvokeRaised else replies[0]
  }

  /** `sql.replace(";", "")`. */
  function RemoveSemicolons(s: string): (r: string)
    ensures ';' !in r
    ensures |r| <= |s|
  {
    if s == [] then []
    else
      var rest := RemoveSemicolons(s[1..]);
      if s[0] == ';' then rest else [s[0]] + rest
  }

  /** On one character: a `;` is dropped, anything else kept. */
  lemma RemoveSemicolonsOne(c: char)
    ensures RemoveSemicolons([c]) == if c == ';' then [] else [c]
  {
    assert [c][1..] == [];
  }

  /** Removing distributes over concatenation, so the order of the other characters is kept. */
  lemma {:induction false} RemoveSemicolonsConcat(a: string, b: string)
    ensures RemoveSemicolons(a + b) == RemoveSemicolons(a) + RemoveSemicolons(b)
  {
    if a == [] {
      assert a + b == b;
    } else {
      assert (a + b)[0] == a[0] && (a + b)[1..] == a[1..] + b;
      RemoveSemicolonsConcat(a[1..], b);
      var head := if a[0] == ';' then [] else [a[0]];
      assert RemoveSemicolons(a + b) == head + RemoveSemicolons(a[1..] + b);
      assert RemoveSemicolons(a) == head + RemoveSemicolons(a[1..]);
    }
  }

  /** Text without any `;` is left as it is. */
  lemma {:induction false} RemoveSemicolonsKeepsClean(s: string)
    requires ';' !in s
    ensures RemoveSemicolons(s) == s
  {
    if s != [] {
      RemoveSemicolonsKeepsClean(s[1..]);
    }
  }

  /** `query_info.command`: the query with every `;` removed, then ` for json path`. */
  function Command(sql: string): (c: string)
    ensures ';' !in c
    ensures |c| >= |JsonPathSuffix| && c[|c| - |JsonPathSuffix|..] == JsonPathSuffix
  {
    var c := RemoveSemicolons(sql) + JsonPathSuffix;
    assert c[|c| - |JsonPathSuffix|..] == JsonPathSuffix;
    c
  }

  /** `result.get("token", result) if isinstance(result, dict) else result`. */
  function TokenOf(result: Value): (t: Value)
    ensures result.Obj? && Lookup(result.fields, "token").Some? ==> t == Lookup(result.fields, "token").value
    ensures !(result.Obj? && Lookup(result.fields, "token").Some?) ==> t == result
  {
    if result.Obj? then GetOr(result, "token", result) else result
  }

  /** `_get_auth_token` after its invocation: the token, which must be truthy. */
  function AuthOutcome(result: Result<Value, FlexlineError>): (r: Result<Value, FlexlineError>)
    ensures r.Ok? ==> result.Ok? && Truthy(r.value) && r.value == TokenOf(result.value)
    ensures result.Ok? && Truthy(TokenOf(result.value)) ==> r.Ok?
    ensures result.Err? ==> r == result
    ensures result.Ok? && r.Err? ==> r.error == NoToken
  {
    match result
    case Err(e) => Err(e)
    case Ok(v) =>
      var token := TokenOf(v);
      if !Truthy(token) then Err(NoToken) else Ok(token)
  }

  /** A non-empty dict without a `token` key is itself the token. */
  lemma TokenlessDictIsItsOwnToken(fields: seq<(string, Value)>)
    requires fields != [] && Lookup(fields, "token").None?
    ensures AuthOutcome(Ok(Obj(fields))) == Ok(Obj(fields))
  {
  }

  /** An empty dict, or a dict whose `token` is falsy, is rejected as having no token. */
  lemma FalsyTokenIsRejected(fields: seq<(string, Value)>)
    requires fields == [] || (Lookup(fields, "token").Some? && !Truthy(Lookup(fields, "token").value))
    ensures AuthOutcome(Ok(Obj(fields))) == Err(NoToken)
  {
  }

  /** `_get_route` after its invocation: the route record, or the parse-route error. */
  function RouteOutcome(result: Result<Value, FlexlineError>): (r: Result<QueryInfo, FlexlineError>)
    ensures r.Ok? <==> result.Ok? && Acceptable(result.value)
    ensures r.Ok? ==> Ok(r.value) == Validate(result.value)
    ensures result.Err? ==> r == Err(result.error)
    ensures result.Ok? && r.Err? ==> r.error == RouteInvalid(Validate(result.value).error)
  {
    match result
    case Err(e) => Err(e)
    case Ok(v) =>
      match Validate(v)
      case Err(violations) => Err(RouteInvalid(violations))
      case Ok(q) => Ok(q)
  }

  /** The execute body: the route record with `command` set, dumped by alias without None fields. */
  function ExecuteBody(q: QueryInfo, sql: string): (b: Value)
    ensures b.Obj? && Truthy(b)
    ensures Lookup(b.fields, "command") == Some(Str(Command(sql)))
  {
    DumpCarriesCommand(q, Command(sql));
    Dump(q.(command := Some(Command(sql))))
  }

  /** What `run` did: its outcome, the envelopes it sent, and the script left over. */
  datatype RunTrace = RunTrace(outcome: Result<Value, FlexlineError>, sent: seq<Invocation>, rest: seq<Reply>)

  /** A trace with one more envelope sent before the others. */
  function Prefixed(e: Invocation, t: RunTrace): (p: RunTrace)
    ensures |p.sent| == |t.sent| + 1 && p.sent[0] == e
    ensures forall i :: 0 <= i < |t.sent| ==> p.sent[i + 1] == t.sent[i]
    ensures p.outcome == t.outcome && p.rest == t.rest
  {
    RunTrace(t.outcome, [e] + t.sent, t.rest)
  }

  /** Sending `e` for stage `k` before envelopes for the stages after `k` sends the stages from `k` on. */
  lemma PrefixedKeepsStages(e: Invocation, t: RunTrace, k: nat, key: string)
    requires k < |Stages| && e.stage == Stages[k] && e.authorization == key
    requires forall i :: 0 <= i < |t.sent| ==> k + 1 + i < |Stages| && t.sent[i].stage == Stages[k + 1 + i] && t.sent[i].authorization == key
    ensures forall i :: 0 <= i < |Prefixed(e, t).sent| ==>
      Prefixed(e, t).sent[i].stage == Stages[k + i] && Prefixed(e, t).sent[i].authorization == key
  {
    var p := Prefixed(e, t);
    forall i | 0 <= i < |p.sent|
      ensures p.sent[i].stage == Stages[k + i] && p.sent[i].authorization == key
    {
      if i > 0 {
        assert p.sent[i] == t.sent[i - 1];
      }
    }
  }

  /** Logging `e` and then `later` is logging `[e] + later`. */
  lemma LogAppend(log: seq<Invocation>, e: Invocation, later: seq<Invocation>)
    ensures log + [e] + later == log + ([e] + later)
  {
  }

  class FlexlineClient {
    const apiKey: string
    const username: string
    const password: string
    /** `base64.b64encode(s.encode()).decode()`. */
    const base64: string -> string
    /** `json.loads`: None when the text is not JSON. */
    const loads: string -> Option<Value>

    /** The replies the Lambda service will give, in order. */
    var replies: seq<Reply>
    /** The envelopes sent so far. */
    var sent: seq<Invocation>
    /** The SQL texts `run` has been called with. */
    ghost var runs: seq<string>

    constructor (apiKey: string, username: string, password: string,
                 base64: string -> string, loads: string -> Option<Value>, replies: seq<Reply>)
      ensures this.apiKey == apiKey && this.username == username && this.password == password
      ensures this.base64 == base64 && this.loads == loads
      ensures this.replies == replies && sent == [] && runs == []
    {
      this.apiKey := apiKey;
      this.username := username;
      this.password := password;
      this.base64 := base64;
      this.loads := loads;
      this.replies := replies;
      sent := [];
      runs := [];
    }

    /** `encoded_api_key`. */
    function EncodedApiKey(): string {
      base64(apiKey)
    }

    /** The envelope `_invoke_lambda` sends: the body only when it is truthy. */
    function Envelope(stage: Stage, params: Option<seq<(string, Value)>>, body: Option<Value>): (e: Invocation)
      ensures e.stage == stage && e.authorization == EncodedApiKey() && e.params == params
      ensures e.body.Some? <==> body.Some? && Truthy(body.value)
      ensures e.body.Some? ==> e.body == body
    {
      Invocation(stage, EncodedApiKey(), params, if body.Some? && Truthy(body.value) then body else None)
    }

    /** The decoded response envelope `json.loads(payload)`, when it is a dict. */
    function Decoded(reply: Reply): Option<Value> {
      if reply.InvokeRaised? then None else loads(reply.payload)
    }

    /**
     * The outcome of `_invoke_lambda` for one reply: the decoded `body` (the
     * empty dict when there is none) when `statusCode` is 200; every other
     * outcome is a `FlexlineError` naming the function.
     */
    function InvokeOutcome(stage: Stage, reply: Reply): (r: Result<Value, FlexlineError>)
      ensures r.Err? ==> r.error.InvokeFailed? && r.error.stage == stage
      ensures r.Ok? ==> (reply.Returned? && Decoded(reply).Some? && Decoded(reply).value.Obj? &&
        Lookup(Decoded(reply).value.fields, "statusCode") == Some(Num(200)))
      ensures r.Ok? && Lookup(Decoded(reply).value.fields, "body").None? ==> r.value == Obj([])
      ensures reply.InvokeRaised? ==> r == Err(InvokeFailed(stage, Transport))
      ensures var d := Decoded(reply);
        d.Some? && d.value.Obj? && Lookup(d.value.fields, "statusCode") == Some(Num(200)) ==>
          var body := Lookup(d.value.fields, "body");
          if body.None? then r == Ok(Obj([]))
          else if !body.value.Str? then r == Err(InvokeFailed(stage, BodyNotText))
          else if loads(body.value.s).None? then r == Err(InvokeFailed(stage, BodyNotJson))
          else r == Ok(loads(body.value.s).value)
    {
      match Decoded(reply)
      case None => Err(InvokeFailed(stage, if reply.InvokeRaised? then Transport else PayloadNotJson))
      case Some(d) =>
        if !d.Obj? then Err(InvokeFailed(stage, PayloadNotObject))
        else
          var status := GetOr(d, "statusCode", Null);
          // json.loads(response_payload.get("body", "{}")): "{}" is the empty dict
          var body: Option<Value> :=
            match Lookup(d.fields, "body")
            case None => Some(Obj([]))
            case Some(Str(text)) => loads(text)
            case Some(_) => None;
          if body.None? then
            Err(InvokeFailed(stage, if Lookup(d.fields, "body").value.Str? then BodyNotJson else BodyNotText))
          else if status != Num(200) then Err(InvokeFailed(stage, BadStatus(status, body.value)))
          else Ok(body.value)
    }

    /** `_invoke_lambda`: send one envelope and consume one reply. */
    method Invoke(stage: Stage, params: Option<seq<(string, Value)>>, body: Option<Value>)
      returns (r: Result<Value, FlexlineError>)
      modifies this
      ensures r == InvokeOutcome(stage, NextReply(old(replies)))
      ensures sent == old(sent) + [Envelope(stage, params, body)]
      ensures replies == AfterReply(old(replies))
      ensures runs == old(runs)
    {
      sent := sent + [Envelope(stage, params, body)];
      var reply := InvokeRaised;
      if replies != [] {
        reply := replies[0];
        replies := replies[1..];
      }
      r := InvokeOutcome(stage, reply);
    }

    function AuthParams(): seq<(string, Value)> {
      [("user", Str(username)), ("pass", Str(password))]
    }

    function RouteParams(token: Value): seq<(string, Value)> {
      [("userId", Str(username)), ("empresaId", token)]
    }

    /** `_get_auth_token`. */
    method GetAuthToken() returns (r: Result<Value, FlexlineError>)
      modifies this
      ensures r == AuthOutcome(InvokeOutcome(Stages[0], NextReply(old(replies))))
      ensures sent == old(sent) + [Envelope(Stages[0], Some(AuthParams()), None)]
      ensures replies == AfterReply(old(replies)) && runs == old(runs)
    {
      var result := Invoke(Stage.Authenticate, Some(AuthParams()), None);
      if result.Err? {
        return Err(result.error);
      }
      var token := TokenOf(result.value);
      if !Truthy(token) {
        return Err(NoToken);
      }
      return Ok(token);
    }

    /** `_get_route`. */
    method GetRoute(token: Value) returns (r: Result<QueryInfo, FlexlineError>)
      modifies this
      ensures r == RouteOutcome(InvokeOutcome(Stages[1], NextReply(old(replies))))
      ensures sent == old(sent) + [Envelope(Stages[1], Some(RouteParams(token)), None)]
      ensures replies == AfterReply(old(replies)) && runs == old(runs)
    {
      var result := Invoke(Stage.GetRoute, Some(RouteParams(token)), None);
      if result.Err? {
        return Err(result.error);
      }
      var info := Validate(result.value);
      if info.Err? {
        return Err(RouteInvalid(info.error));
      }
      return Ok(info.value);
    }

    /** `_process_query`: set the command and invoke the data function with the dumped record. */
    method ProcessQuery(sql: string, info: QueryInfo) returns (r: Result<Value, FlexlineError>)
      modifies this
      ensures var t := Execute(sql, info, old(replies));
        r == t.outcome && sent == old(sent) + t.sent && replies == t.rest
      ensures runs == old(runs)
    {
      var withCommand := info.(command := Some(Command(sql)));
      var body := Dump(withCommand);
      r := Invoke(Stage.FlexlineData, None, Some(body));
    }

    /** What `run(sql)` does against the script `replies`. */
    function RunSpec(sql: string, replies: seq<Reply>): (t: RunTrace)
      ensures 1 <= |t.sent| <= 3
    {
      AfterAuth(sql, AuthOutcome(InvokeOutcome(Stage.Authenticate, NextReply(replies))), AfterReply(replies))
    }

    /** A run once authentication has produced `auth`; `rest` is the script left. */
    function AfterAuth(sql: string, auth: Result<Value, FlexlineError>, rest: seq<Reply>): (t: RunTrace)
      ensures 1 <= |t.sent| <= 3
      ensures t.sent[0] == Envelope(Stage.Authenticate, Some(AuthParams()), None)
      ensures forall i :: 0 <= i < |t.sent| ==>
        t.sent[i].stage == Stages[i] && t.sent[i].authorization == EncodedApiKey()
      ensures |t.sent| == 1 <==> auth.Err?
      ensures auth.Err? ==> (t.outcome == Err(auth.error) && t.rest == rest &&
        t.sent == [Envelope(Stage.Authenticate, Some(AuthParams()), None)])
      ensures auth.Ok? ==> t == Prefixed(Envelope(Stage.Authenticate, Some(AuthParams()), None),
        RouteAndExecute(sql, auth.value, rest))
    {
      var first := Envelope(Stage.Authenticate, Some(AuthParams()), None);
      match auth
      case Err(e) => RunTrace(Err(e), [first], rest)
      case Ok(token) =>
        var later := RouteAndExecute(sql, token, rest);
        PrefixedKeepsStages(first, later, 0, EncodedApiKey());
        Prefixed(first, later)
    }

    /** The rest of a run once the token is known. */
    function RouteAndExecute(sql: string, token: Value, replies: seq<Reply>): (t: RunTrace)
      ensures 1 <= |t.sent| <= 2
      ensures forall i :: 0 <= i < |t.sent| ==>
        t.sent[i].stage == Stages[i + 1] && t.sent[i].authorization == EncodedApiKey()
    {
      AfterRoute(sql, token, RouteOutcome(InvokeOutcome(Stage.GetRoute, NextReply(replies))), AfterReply(replies))
    }

    /** A run once the route call has produced `route`; `rest` is the script left. */
    function AfterRoute(sql: string, token: Value, route: Result<QueryInfo, FlexlineError>, rest: seq<Reply>)
      : (t: RunTrace)
      ensures 1 <= |t.sent| <= 2
      ensures t.sent[0] == Envelope(Stage.GetRoute, Some(RouteParams(token)), None)
      ensures forall i :: 0 <= i < |t.sent| ==>
        t.sent[i].stage == Stages[i + 1] && t.sent[i].authorization == EncodedApiKey()
      ensures |t.sent| == 1 <==> route.Err?
      ensures route.Err? ==> (t.outcome == Err(route.error) && t.rest == rest &&
        t.sent == [Envelope(Stage.GetRoute, Some(RouteParams(token)), None)])
      ensures route.Ok? ==> t.rest == AfterReply(rest)
      ensures route.Ok? ==> t == Prefixed(Envelope(Stage.GetRoute, Some(RouteParams(token)), None),
        Execute(sql, route.value, rest))
    {
      var second := Envelope(Stage.GetRoute, Some(RouteParams(token)), None);
      match route
      case Err(e) => RunTrace(Err(e), [second], rest)
      case Ok(info) =>
        var last := Execute(sql, info, rest);
        PrefixedKeepsStages(second, last, 1, EncodedApiKey());
        Prefixed(second, last)
    }

    /** The last stage of a run once the route is known. */
    function Execute(sql: string, info: QueryInfo, replies: seq<Reply>): (t: RunTrace)
      ensures t.sent == [Envelope(Stage.FlexlineData, None, Some(ExecuteBody(info, sql)))]
      ensures t.rest == AfterReply(replies)
      ensures t.outcome == InvokeOutcome(Stage.FlexlineData, NextReply(replies))
    {
      var third := Envelope(Stage.FlexlineData, None, Some(ExecuteBody(info, sql)));
      RunTrace(InvokeOutcome(Stage.FlexlineData, NextReply(replies)), [third], AfterReply(replies))
    }

    /** The part of `run` after authentication: get the route, then execute. */
    method RouteAndProcess(sql: string, token: Value) returns (r: Result<Value, FlexlineError>)
      modifies this
      ensures var t := RouteAndExecute(sql, token, old(replies));
        r == t.outcome && sent == old(sent) + t.sent && replies == t.rest
      ensures runs == old(runs)
    {
      ghost var s0 := sent;
      ghost var rest := AfterReply(replies);
      ghost var route := RouteOutcome(InvokeOutcome(Stage.GetRoute, NextReply(replies)));
      ghost var t := AfterRoute(sql, token, route, rest);
      var info := GetRoute(token);
      if info.Err? {
        return Err(info.error);
      }
      ghost var t2 := Execute(sql, info.value, replies);
      assert t == Prefixed(Envelope(Stage.GetRoute, Some(RouteParams(token)), None), t2);
      r := ProcessQuery(sql, info.value);
      LogAppend(s0, Envelope(Stage.GetRoute, Some(RouteParams(token)), None), t2.sent);
    }

    /** `run`: authenticate, get the route, execute; the first failure ends the run. */
    method Run(sql: string) returns (r: Result<Value, FlexlineError>)
      modifies this
      ensures var t := RunSpec(sql, old(replies));
        r == t.outcome && sent == old(sent) + t.sent && replies == t.rest
      ensures runs == old(runs) + [sql]
    {
      runs := runs + [sql];
      ghost var t := RunSpec(sql, replies);
      var token := GetAuthToken();
      if token.Err? {
        return Err(token.error);
      }
      ghost var t1 := RouteAndExecute(sql, token.value, replies);
      assert t == Prefixed(Envelope(Stage.Authenticate, Some(AuthParams()), None), t1);
      r := RouteAndProcess(sql, token.value);
      LogAppend(old(sent), Envelope(Stage.Authenticate, Some(AuthParams()), None), t1.sent);
    }

    // -------------------------------------------------------------------------
    // Properties of a run

    /** The stages are invoked in order, each at most once, each with the encoded API key. */
    lemma RunInvokesStagesInOrder(sql: string, replies: seq<Reply>)
      ensures var t := RunSpec(sql, replies);
        forall i :: 0 <= i < |t.sent| ==>
          t.sent[i].stage == Stages[i] && t.sent[i].authorization == EncodedApiKey()
    {
    }

    /** A run that stops early has failed; a successful run reached the data function. */
    lemma RunStopsAtFirstFailure(sql: string, replies: seq<Reply>)
      ensures var t := RunSpec(sql, replies);
        (|t.sent| < 3 ==> t.outcome.Err?) && (t.outcome.Ok? ==> |t.sent| == 3)
      ensures var t := RunSpec(sql, replies);
        |t.sent| == 1 <==> AuthOutcome(InvokeOutcome(Stages[0], NextReply(replies))).Err?
    {
    }

    /** Authentication sends the credentials; the route call sends the user and the token it got. */
    lemma RunSendsCredentialsThenToken(sql: string, replies: seq<Reply>)
      ensures var t := RunSpec(sql, replies);
        t.sent[0].params == Some([("user", Str(username)), ("pass", Str(password))]) &&
        t.sent[0].body.None?
      ensures var t := RunSpec(sql, replies);
        var auth := AuthOutcome(InvokeOutcome(Stages[0], NextReply(replies)));
        |t.sent| >= 2 ==> auth.Ok? && t.sent[1].params == Some([("userId", Str(username)), ("empresaId", auth.value)])
    {
    }

    /** The data function receives the query as `command`, with no `;` left in it. */
    lemma RunExecutesCommand(sql: string, replies: seq<Reply>)
      ensures var t := RunSpec(sql, replies);
        |t.sent| == 3 ==> (t.sent[2].body.Some? && t.sent[2].body.value.Obj? &&
          Lookup(t.sent[2].body.value.fields, "command") == Some(Str(Command(sql))) &&
          ';' !in Command(sql))
    {
    }

    /** A run that reaches the data function returns what that invocation of it returns. */
    lemma RunReturnsDataOutcome(sql: string, replies: seq<Reply>)
      ensures var t := RunSpec(sql, replies);
        |t.sent| == 3 ==> t.outcome == InvokeOutcome(Stages[2], NextReply(AfterReply(AfterReply(replies))))
    {
    }

    /** Each invocation consumes exactly one reply. */
    lemma RunConsumesOneReplyPerInvocation(sql: string, replies: seq<Reply>)
      ensures var t := RunSpec(sql, replies);
        |replies| >= |t.sent| ==> t.rest == replies[|t.sent|..]
    {
      var t := RunSpec(sql, replies);
      var auth := AuthOutcome(InvokeOutcome(Stage.Authenticate, NextReply(replies)));
      if auth.Ok? && |replies| >= |t.sent| {
        var r1 := AfterReply(replies);
        var t1 := RouteAndExecute(sql, auth.value, r1);
        assert t.rest == t1.rest;
        if |t1.sent| == 2 {
          assert r1[1..] == replies[2..];
          assert AfterReply(r1)[1..] == replies[3..];
        }
      }
    }

    /** A decoded reply whose `statusCode` is not 200 is never a result, whatever its body holds. */
    lemma StatusOtherThan200Fails(stage: Stage, reply: Reply)
      requires Decoded(reply).Some? && Decoded(reply).value.Obj?
      requires GetOr(Decoded(reply).value, "statusCode", Null) != Num(200)
      ensures InvokeOutcome(stage, reply).Err?
    {
    }
  }
}
