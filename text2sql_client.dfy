/**
 * `Text2SQLClient` of app/text2sql/client.py: a token kept in the client,
 * the credentials stored after a successful login, and the question-to-SQL
 * call with its read-only check.
 *
 * HTTP is an oracle: a script of replies the client consumes one per
 * request (an exhausted script behaves as a connection failure), and a log
 * of the requests it issued.
 */
module Text2Sql {
  import opened Wrappers
  import opened Json

  /** What one HTTP request gives back. */
  datatype HttpReply =
    | ConnectionFailed                           // `requests` raised a RequestException
    | Response(status: int, json: Option<Value>) // the body as decoded JSON, None when it is not JSON

  /** A request the client issued. */
  datatype HttpRequest =
    | TokenRequest(url: string, grantType: string, username: string, password: string)
    | QuestionRequest(url: string, bearer: Value, question: string)

  /** `response.ok`: `raise_for_status()` raises for exactly the statuses 400..599. */
  predicate IsOk(status: int) {
    !(400 <= status < 600)
  }

  /** `bool(response)` for `response: Response | None`: a Response is truthy exactly when it is ok. */
  predicate ResponseTruthy(r: Option<HttpReply>) {
    r.Some? && r.value.Response? && IsOk(r.value.status)
  }

  /** The reply the next request gets; past the end of the script the connection fails. */
  function NextReply(replies: seq<HttpReply>): HttpReply {
    if replies == [] then ConnectionFailed else replies[0]
  }

  /**
   * What `authenticate` does with its reply: the result, and the new token
   * when the token is assigned (even a falsy one). A reply that is not a
   * JSON object lets `AttributeError` escape; a body that is not JSON is a
   * RequestException and gives False.
   */
  function AuthEffect(reply: HttpReply): (e: (Raises<bool>, Option<Value>))
    ensures e.0 == Returns(true) <==>
      reply.Response? && IsOk(reply.status) && reply.json.Some? && reply.json.value.Obj? &&
      Truthy(GetOr(reply.json.value, "access_token", Null))
    ensures e.1.Some? <==> reply.Response? && IsOk(reply.status) && reply.json.Some? && reply.json.value.Obj?
    ensures e.1.Some? ==> (e.1.value == GetOr(reply.json.value, "access_token", Null) &&
      e.0 == Returns(Truthy(e.1.value)))
    ensures e.0.Escapes? <==> reply.Response? && IsOk(reply.status) && reply.json.Some? && !reply.json.value.Obj?
  {
    match reply
    case ConnectionFailed => (Returns(false), None)
    case Response(status, json) =>
      if !IsOk(status) then (Returns(false), None)
      else match json
        case None => (Returns(false), None)
        case Some(d) =>
          if !d.Obj? then (Escapes(AttributeError), None)
          else
            var token := GetOr(d, "access_token", Null);
            (Returns(Truthy(token)), Some(token))
  }

  /**
   * How `get_sql` ends on its final response: None unless the response is
   * truthy, and then the data only when its `read_only` flag is truthy.
   * Decoding the body is not guarded, so a body that is not JSON, or JSON
   * that is not an object, lets the exception escape.
   */
  function FinalOutcome(response: Option<HttpReply>): (r: Raises<Option<Value>>)
    ensures !ResponseTruthy(response) ==> r == Returns(None)
    ensures r.Returns? && r.value.Some? ==>
      ResponseTruthy(response) && response.value.json == Some(r.value.value) &&
      r.value.value.Obj? && Truthy(GetOr(r.value.value, "read_only", Null))
    ensures (ResponseTruthy(response) && response.value.json.Some? && response.value.json.value.Obj? &&
      Truthy(GetOr(response.value.json.value, "read_only", Null))) ==> r == Returns(response.value.json)
  {
    if ResponseTruthy(response) then
      match response.value.json
      case None => Escapes(JsonDecodeError)
      case Some(data) =>
        if !data.Obj? then Escapes(AttributeError)
        else if !Truthy(GetOr(data, "read_only", Null)) then Returns(None)
        else Returns(Some(data))
    else Returns(None)
  }

  /** A truthy response is ok, so it is never a 401: the retry branch cannot be taken. */
  lemma RetryBranchIsDead(response: Option<HttpReply>)
    ensures ResponseTruthy(response) ==> response.value.status != 401
  {
  }

  /** A truthy response is always ok, so the branch logging a failed status cannot be taken. */
  lemma FailureLogBranchIsDead(response: Option<HttpReply>)
    ensures ResponseTruthy(response) ==> IsOk(response.value.status)
  {
  }

  /** A missing or falsy `read_only` flag gives None, whatever else the data holds. */
  lemma NotReadOnlyIsRejected(status: int, data: Value)
    requires IsOk(status) && data.Obj? && !Truthy(GetOr(data, "read_only", Null))
    ensures FinalOutcome(Some(Response(status, Some(data)))) == Returns(None)
  {
  }

  class Text2SQLClient {
    const baseUrl: string
    const workspaceId: string
    var username: Option<string>
    var password: Option<string>
    /** `self.token`; `Null` stands for None. */
    var token: Value
    /** The replies the HTTP service will give, in order. */
    var replies: seq<HttpReply>
    /** The requests issued so far. */
    var log: seq<HttpRequest>

    constructor (baseUrl: string, workspaceId: string, replies: seq<HttpReply>)
      ensures this.baseUrl == baseUrl && this.workspaceId == workspaceId
      ensures username.None? && password.None? && token == Null
      ensures this.replies == replies && log == []
    {
      this.baseUrl := baseUrl;
      this.workspaceId := workspaceId;
      username := None;
      password := None;
      token := Null;
      this.replies := replies;
      log := [];
    }

    function AuthUrl(): string {
      baseUrl + "/api/auth/token"
    }

    function AiUrl(): string {
      baseUrl + "/api/ai/" + workspaceId
    }

    /** Take the next reply of the script. */
    method Receive() returns (reply: HttpReply)
      modifies this
      ensures reply == NextReply(old(replies)) && replies == AfterReply(old(replies))
      ensures log == old(log) && token == old(token)
      ensures username == old(username) && password == old(password)
    {
      reply := ConnectionFailed;
      if replies != [] {
        reply := replies[0];
        replies := replies[1..];
      }
    }

    /**
     * `authenticate`: one token request; True exactly when a truthy token
     * arrives, and only then are the credentials stored.
     */
    method Authenticate(user: string, pass: string) returns (r: Raises<bool>)
      modifies this
      ensures var e := AuthEffect(NextReply(old(replies)));
        r == e.0 && token == (if e.1.Some? then e.1.value else old(token))
      ensures r == Returns(true) ==> username == Some(user) && password == Some(pass)
      ensures r != Returns(true) ==> username == old(username) && password == old(password)
      ensures log == old(log) + [TokenRequest(AuthUrl(), "password", user, pass)]
      ensures replies == AfterReply(old(replies))
    {
      log := log + [TokenRequest(AuthUrl(), "password", user, pass)];
      var reply := Receive();
      if reply.ConnectionFailed? || !IsOk(reply.status) || reply.json.None? {
        // RequestException, the HTTPError of raise_for_status, or JSONDecodeError: logged, False
        return Returns(false);
      }
      var data := reply.json.value;
      if !data.Obj? {
        return Escapes(AttributeError);
      }
      token := GetOr(data, "access_token", Null);
      if Truthy(token) {
        username := Some(user);
        password := Some(pass);
        return Returns(true);
      }
      return Returns(false);
    }

    /** `_make_request`: no request at all without a token; a connection failure gives None. */
    method MakeRequest(question: string) returns (response: Option<HttpReply>)
      modifies this
      ensures !Truthy(old(token)) ==> response.None? && log == old(log) && replies == old(replies)
      ensures Truthy(old(token)) ==>
        log == old(log) + [QuestionRequest(AiUrl(), old(token), question)] &&
        replies == AfterReply(old(replies)) &&
        response == (if NextReply(old(replies)).ConnectionFailed? then None else Some(NextReply(old(replies))))
      ensures token == old(token) && username == old(username) && password == old(password)
    {
      if !Truthy(token) {
        return None;
      }
      log := log + [QuestionRequest(AiUrl(), token, question)];
      var reply := Receive();
      if reply.ConnectionFailed? {
        return None;
      }
      return Some(reply);
    }

    /**
     * `get_sql`: one question request (none without a token), never a
     * re-authentication, and a result only when it is flagged read-only.
     */
    method GetSql(question: string) returns (r: Raises<Option<Value>>)
      modifies this
      ensures var first := if !Truthy(old(token)) || NextReply(old(replies)).ConnectionFailed? then None
                           else Some(NextReply(old(replies)));
        r == FinalOutcome(first)
      ensures log == old(log) + (if Truthy(old(token)) then [QuestionRequest(AiUrl(), old(token), question)] else [])
      ensures replies == (if Truthy(old(token)) then AfterReply(old(replies)) else old(replies))
      ensures token == old(token) && username == old(username) && password == old(password)
      ensures r.Returns? && r.value.Some? ==> Truthy(GetOr(r.value.value, "read_only", Null))
    {
      var response := MakeRequest(question);
      if ResponseTruthy(response) && response.value.status == 401 {
        // the re-authentication and second request: a truthy response is never a 401
        assert false;
      }
      if ResponseTruthy(response) && IsOk(response.value.status) {
        var json := response.value.json;
        if json.None? {
          return Escapes(JsonDecodeError);
        }
        var data := json.value;
        if !data.Obj? {
          return Escapes(AttributeError);
        }
        if !Truthy(GetOr(data, "read_only", Null)) {
          return Returns(None);
        }
        return Returns(Some(data));
      } else if ResponseTruthy(response) {
        // the failed-status log: a truthy response is always ok
        assert false;
      }
      return Returns(None);
    }
  }
}
