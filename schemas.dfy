/**
 * The route record `QueryInfo` of app/flexline/schemas.py: eleven required
 * string fields, `server` read from the input key `serverSQL`, and an
 * optional `command`. Validation is the pydantic reading of a decoded JSON
 * object; the dump is `model_dump(by_alias=True, exclude_none=True)`.
 */
module Schemas {
  import opened Wrappers
  import opened Json

  datatype QueryInfo = QueryInfo(
    codigoLegal: string,
    dataBase: string,
    empresaFlexline: string,
    instalacion: string,
    password: string,
    razonSocial: string,
    server: string,
    urlApiData: string,
    urlApiIntegracion: string,
    user: string,
    userFlexline: string,
    command: Option<string>)

  /** Why a field (or the whole input) was rejected. */
  datatype Violation =
    | NotAnObject
    | Missing(key: string)
    | NotAString(key: string)

  /** The input keys of the required fields, in declaration order; `server` is read from `serverSQL`. */
  const InputKeys: seq<string> := [
    "codigoLegal", "dataBase", "empresaFlexline", "instalacion", "password", "razonSocial",
    "serverSQL", "urlApiData", "urlApiIntegracion", "user", "userFlexline"]

  /** The keys the dump writes for the required fields: the field names themselves. */
  const OutputKeys: seq<string> := [
    "codigoLegal", "dataBase", "empresaFlexline", "instalacion", "password", "razonSocial",
    "server", "urlApiData", "urlApiIntegracion", "user", "userFlexline"]

  /** The required fields of a record, in declaration order. */
  function Required(q: QueryInfo): (fs: seq<string>)
    ensures |fs| == |InputKeys|
  {
    [q.codigoLegal, q.dataBase, q.empresaFlexline, q.instalacion, q.password, q.razonSocial,
     q.server, q.urlApiData, q.urlApiIntegracion, q.user, q.userFlexline]
  }

  /** `key` is bound to a JSON string. */
  predicate HasString(fields: seq<(string, Value)>, key: string) {
    var v := Lookup(fields, key);
    v.Some? && v.value.Str?
  }

  /** The string bound to `key`, for a field that has one. */
  function StringAt(fields: seq<(string, Value)>, key: string): string
    requires HasString(fields, key)
  {
    Lookup(fields, key).value.s
  }

  /** `command: str | None = None`: absent or `null` gives None, a string is kept. */
  predicate CommandAcceptable(fields: seq<(string, Value)>) {
    var v := Lookup(fields, "command");
    v.None? || v.value.Null? || v.value.Str?
  }

  /** What `QueryInfo.model_validate` accepts. */
  predicate Acceptable(v: Value) {
    v.Obj? && (forall i :: 0 <= i < |InputKeys| ==> HasString(v.fields, InputKeys[i])) &&
    CommandAcceptable(v.fields)
  }

  /** The violation, if any, of one required field. */
  function FieldViolation(fields: seq<(string, Value)>, key: string): (e: seq<Violation>)
    ensures e == [] <==> HasString(fields, key)
    ensures |e| <= 1
  {
    match Lookup(fields, key)
    case None => [Missing(key)]
    case Some(Str(_)) => []
    case Some(_) => [NotAString(key)]
  }

  /** The violations of the required fields `keys`, in order. */
  function FieldViolations(fields: seq<(string, Value)>, keys: seq<string>): (e: seq<Violation>)
    ensures e == [] <==> forall i :: 0 <= i < |keys| ==> HasString(fields, keys[i])
    ensures forall i :: 0 <= i < |e| ==> (e[i].Missing? || e[i].NotAString?) && e[i].key in keys
  {
    if keys == [] then []
    else
      var head := FieldViolation(fields, keys[0]);
      var tail := FieldViolations(fields, keys[1..]);
      assert forall i :: 0 < i < |keys| ==> keys[i] == keys[1..][i - 1];
      assert forall x :: x in keys[1..] ==> x in keys;
      head + tail
  }

  function CommandViolation(fields: seq<(string, Value)>): (e: seq<Violation>)
    ensures e == [] <==> CommandAcceptable(fields)
  {
    match Lookup(fields, "command")
    case None => []
    case Some(Null) => []
    case Some(Str(_)) => []
    case Some(_) => [NotAString("command")]
  }

  function CommandOf(fields: seq<(string, Value)>): (c: Option<string>)
    requires CommandAcceptable(fields)
    ensures c.None? <==> Lookup(fields, "command").None? || Lookup(fields, "command").value.Null?
    ensures c.Some? ==> Lookup(fields, "command") == Some(Str(c.value))
  {
    match Lookup(fields, "command")
    case None => None
    case Some(Str(c)) => Some(c)
    case Some(_) => None
  }

  /**
   * `QueryInfo.model_validate(v)`: a record exactly when every required field
   * is a string (and `command` is a string, null or absent); otherwise the
   * violations, in field order.
   */
  function Validate(v: Value): (r: Result<QueryInfo, seq<Violation>>)
    ensures r.Ok? <==> Acceptable(v)
    ensures r.Err? ==> r.error != []
  {
    if !v.Obj? then Err([NotAnObject])
    else
      var errs := FieldViolations(v.fields, InputKeys) + CommandViolation(v.fields);
      if errs != [] then Err(errs) else Ok(Build(v.fields))
  }

  /** Each field of a validated record is the string under its input key; `server` comes from `serverSQL`. */
  lemma ValidateReadsInputKeys(v: Value)
    requires Validate(v).Ok?
    ensures forall i :: 0 <= i < |InputKeys| ==> Required(Validate(v).value)[i] == StringAt(v.fields, InputKeys[i])
    ensures Validate(v).value.server == StringAt(v.fields, "serverSQL")
    ensures Validate(v).value.command == CommandOf(v.fields)
  {
    assert InputKeys[6] == "serverSQL";
  }

  /** A rejected object names every absent required key as missing, and no other. */
  lemma ValidateReportsMissing(v: Value)
    requires v.Obj? && Validate(v).Err?
    ensures forall i :: 0 <= i < |InputKeys| ==>
      (Missing(InputKeys[i]) in Validate(v).error <==> Lookup(v.fields, InputKeys[i]).None?)
  {
    var f := v.fields;
    MissingReported(f, InputKeys);
    var e := FieldViolations(f, InputKeys);
    assert Validate(v).error == e + CommandViolation(f);
    assert forall x :: x in CommandViolation(f) ==> x == NotAString("command");
  }

  /** The record whose fields are the strings under the input keys. */
  function Build(f: seq<(string, Value)>): (q: QueryInfo)
    requires forall i :: 0 <= i < |InputKeys| ==> HasString(f, InputKeys[i])
    requires CommandAcceptable(f)
    ensures forall i :: 0 <= i < |InputKeys| ==> Required(q)[i] == StringAt(f, InputKeys[i])
    ensures q.command == CommandOf(f)
  {
    var a := seq(|InputKeys|, i requires 0 <= i < |InputKeys| => StringAt(f, InputKeys[i]));
    var q := QueryInfo(a[0], a[1], a[2], a[3], a[4], a[5], a[6], a[7], a[8], a[9], a[10], CommandOf(f));
    RequiredIsFields(a, q);
    q
  }

  lemma RequiredIsFields(a: seq<string>, q: QueryInfo)
    requires |a| == 11
    requires q.codigoLegal == a[0] && q.dataBase == a[1] && q.empresaFlexline == a[2] && q.instalacion == a[3]
    requires q.password == a[4] && q.razonSocial == a[5] && q.server == a[6] && q.urlApiData == a[7]
    requires q.urlApiIntegracion == a[8] && q.user == a[9] && q.userFlexline == a[10]
    ensures Required(q) == a
  {
  }

  /** A required key is reported missing exactly when it is absent. */
  lemma {:induction false} MissingReported(fields: seq<(string, Value)>, keys: seq<string>)
    ensures forall i :: 0 <= i < |keys| ==>
      (Missing(keys[i]) in FieldViolations(fields, keys) <==> Lookup(fields, keys[i]).None?)
  {
    if keys != [] {
      MissingReported(fields, keys[1..]);
      var e := FieldViolations(fields, keys);
      assert e == FieldViolation(fields, keys[0]) + FieldViolations(fields, keys[1..]);
      forall i | 0 <= i < |keys|
        ensures Missing(keys[i]) in e <==> Lookup(fields, keys[i]).None?
      {
        if i > 0 {
          assert keys[i] == keys[1..][i - 1];
        }
      }
    }
  }

  /** `model_dump(by_alias=True, exclude_none=True)`: the field names as keys, `command` only when set. */
  function Dump(q: QueryInfo): (d: Value)
    ensures d.Obj?
    ensures |d.fields| == |OutputKeys| + (if q.command.Some? then 1 else 0)
    ensures forall i :: 0 <= i < |OutputKeys| ==> d.fields[i] == (OutputKeys[i], Str(Required(q)[i]))
    ensures q.command.Some? ==> d.fields[|OutputKeys|] == ("command", Str(q.command.value))
  {
    var req := seq(|OutputKeys|, i requires 0 <= i < |OutputKeys| => (OutputKeys[i], Str(Required(q)[i])));
    match q.command
    case None => Obj(req)
    case Some(c) => Obj(req + [("command", Str(c))])
  }

  /** The dump writes the server under `server`, never under the input key `serverSQL`. */
  lemma DumpRenamesServer(q: QueryInfo)
    ensures Lookup(Dump(q).fields, "server") == Some(Str(q.server))
    ensures Lookup(Dump(q).fields, "serverSQL").None?
  {
    var d := Dump(q).fields;
    forall i | 0 <= i < |d| ensures d[i].0 != "serverSQL" && (i < 6 ==> d[i].0 != "server") {
      if i < |OutputKeys| {
        assert d[i].0 == OutputKeys[i];
      }
    }
    LookupFirst(d, "server", 6);
  }

  /** Once `command` is set, the dump carries it. */
  lemma DumpCarriesCommand(q: QueryInfo, c: string)
    ensures Lookup(Dump(q.(command := Some(c))).fields, "command") == Some(Str(c))
  {
    var d := Dump(q.(command := Some(c))).fields;
    assert d[|OutputKeys|] == ("command", Str(c));
    forall i | 0 <= i < |OutputKeys| ensures d[i].0 != "command" {
      assert d[i].0 == OutputKeys[i];
    }
    LookupFirst(d, "command", |OutputKeys|);
  }

  /** The first binding of a key is the one `Lookup` finds. */
  lemma {:induction false} LookupFirst(fields: seq<(string, Value)>, key: string, i: nat)
    requires i < |fields| && fields[i].0 == key
    requires forall k :: 0 <= k < i ==> fields[k].0 != key
    ensures Lookup(fields, key) == Some(fields[i].1)
  {
    if i > 0 {
      LookupFirst(fields[1..], key, i - 1);
    }
  }

  /** So a dumped record does not validate again: `serverSQL` is missing. */
  lemma DumpDoesNotRevalidate(q: QueryInfo)
    ensures Validate(Dump(q)).Err?
    ensures Missing("serverSQL") in Validate(Dump(q)).error
  {
    DumpRenamesServer(q);
    assert InputKeys[6] == "serverSQL";
    assert !HasString(Dump(q).fields, InputKeys[6]);
    ValidateReportsMissing(Dump(q));
  }
}
