// The request and reply language shared by both broker copies: decoded JSON
// values, Python's truthiness and str(), the reply dicts, the api-version gate
// of process_requests and the final rule of process_requests_v1.

module BrokerRequests {
  import opened Wrappers
  import opened Text

  /** A decoded JSON value; a float is kept as its printed form (what str()
      gives) together with its value, which is taken to be finite. A reply
      may also hold a ValueError object, which no request decodes to. */
  datatype Json =
    | JNull
    | JBool(b: bool)
    | JInt(i: int)
    | JStr(s: string)
    | JList(items: seq<Json>)
    | JObj(entries: seq<(string, Json)>)
    | JFloat(text: string, value: real)
    | JValueError(message: string)

  /** Python's bool(v). */
  predicate Truthy(v: Json) {
    match v
    case JNull => false
    case JBool(b) => b
    case JInt(i) => i != 0
    case JStr(s) => s != []
    case JList(items) => items != []
    case JObj(entries) => entries != []
    case JFloat(_, x) => x != 0.0
    case JValueError(_) => true
  }

  /** Python's repr(v) (strings are quoted without escaping). */
  function Repr(v: Json): string
    decreases v, 1
  {
    match v
    case JStr(s) => "'" + s + "'"
    case JValueError(m) => "ValueError('" + m + "',)"
    case _ => Str(v)
  }

  /** Python's str(v), i.e. what "{}".format(v) and "%s" % v print. */
  function Str(v: Json): string
    decreases v, 0
  {
    match v
    case JNull => "None"
    case JBool(b) => if b then "True" else "False"
    case JInt(i) => IntToString(i)
    case JStr(s) => s
    case JList(items) =>
      "[" + Join(", ", seq(|items|, k requires 0 <= k < |items| => Repr(items[k]))) + "]"
    case JObj(entries) =>
      "{" + Join(", ", seq(|entries|, k requires 0 <= k < |entries| =>
                                "'" + entries[k].0 + "': " + Repr(entries[k].1))) + "}"
    case JFloat(text, _) => text
    case JValueError(m) => m
  }

  lemma StrOfStrings(s: string, i: int)
    ensures Str(JStr(s)) == s && Str(JNull) == "None" && Str(JInt(i)) == IntToString(i)
  {
  }

  /** Python's `v == 1`: the int 1, the bool True (True == 1 in Python) or a
      float whose value is 1 (1.0 == 1). */
  predicate EqualsOne(v: Json) {
    v == JInt(1) || v == JBool(true) || (v.JFloat? && v.value == 1.0)
  }

  /** A decoded JSON object; a repeated key keeps its last value. */
  type Request = map<string, Json>

  function ToMap(entries: seq<(string, Json)>): (m: Request)
    ensures forall k :: k in m <==> exists e :: e in entries && e.0 == k
  {
    if entries == [] then map[]
    else
      var last := entries[|entries| - 1];
      ToMap(entries[..|entries| - 1])[last.0 := last.1]
  }

  /** request.get(k): None when the key is missing. */
  function Get(r: Request, k: string): (v: Json)
    ensures k !in r ==> v == JNull
  {
    if k in r then r[k] else JNull
  }

  /** A reply dict. */
  type Response = map<string, Json>

  function Success(): (d: Response)
    ensures d.Keys == {"exit-code"} && d["exit-code"] == JInt(0)
  {
    map["exit-code" := JInt(0)]
  }

  function Failure(msg: string): (d: Response)
    ensures d.Keys == {"exit-code", "stderr"}
    ensures d["exit-code"] == JInt(1) && d["stderr"] == JStr(msg)
  {
    map["exit-code" := JInt(1), "stderr" := JStr(msg)]
  }

  /** What a handler returned: a dict, or anything else (None, a bool, ...). */
  datatype Ret = NoDict | Dict(d: Response)

  /** A handler either returns or raises an exception (its message). */
  datatype Outcome = Returned(ret: Ret) | Raised(error: string)

  /** The end of process_requests_v1: the last ret counts when it is a dict
      with an exit-code, otherwise the reply is exit-code 0. */
  function FinalReply(ret: Ret): (d: Response)
    ensures "exit-code" in d
    ensures ret.Dict? && "exit-code" in ret.d ==> d == ret.d
    ensures !(ret.Dict? && "exit-code" in ret.d) ==> d == Success()
  {
    if ret.Dict? && "exit-code" in ret.d then ret.d else Success()
  }

  function UnknownOperation(op: Json): (d: Response)
    ensures d == Failure("Unknown operation '" + Str(op) + "'")
  {
    Failure("Unknown operation '" + Str(op) + "'")
  }

  /** Iterating `for req in reqs['ops']` after `len(reqs)`: a list yields its
      items, a string its characters, a dict its keys; anything else has no
      len() and raises. */
  function OpItems(ops: Json): (r: Option<seq<Json>>)
    ensures ops.JList? ==> r == Some(ops.items)
    ensures ops.JNull? || ops.JInt? || ops.JBool? ==> r.None?
    ensures r.Some? ==> (|r.value| == 0 <==> !Truthy(ops))
  {
    match ops
    case JList(items) => Some(items)
    case JStr(s) => Some(seq(|s|, k requires 0 <= k < |s| => JStr([s[k]])))
    case JObj(entries) => Some(seq(|entries|, k requires 0 <= k < |entries| => JStr(entries[k].0)))
    case _ => None
  }

  /** Whether json.dumps can encode v: an exception object cannot, at any
      depth. */
  predicate Encodable(v: Json) {
    match v
    case JValueError(_) => false
    case JList(items) => forall k :: 0 <= k < |items| ==> Encodable(items[k])
    case JObj(entries) => forall k :: 0 <= k < |entries| ==> Encodable(entries[k].1)
    case _ => true
  }

  /** json.dumps of a reply, as decode_req_encode_rsp applies it to what
      process_requests returns: a TypeError escapes when some value of the
      reply cannot be encoded. */
  function Dumps(d: Response): (r: Result<Response, string>)
    ensures r.Ok? <==> forall k :: k in d ==> Encodable(d[k])
    ensures r.Ok? ==> r.value == d
  {
    if forall k :: k in d ==> Encodable(d[k]) then Ok(d)
    else Err("TypeError: object is not JSON serializable")
  }

  /** Every reply built from strings and ints alone is encoded. */
  lemma FailureEncoded(msg: string)
    ensures Dumps(Failure(msg)) == Ok(Failure(msg)) && Dumps(Success()) == Ok(Success())
  {
  }

  /** What process_requests_v1 ended with. */
  datatype V1Result = V1Reply(reply: Response) | V1Raised(error: string)

  function WithRequestId(resp: Response, reqs: Request): (d: Response)
    ensures Truthy(Get(reqs, "request-id")) ==> d == resp["request-id" := Get(reqs, "request-id")]
    ensures !Truthy(Get(reqs, "request-id")) ==> d == resp
  {
    var id := Get(reqs, "request-id");
    if Truthy(id) then resp["request-id" := id] else resp
  }

  function UnexpectedError(reqsText: string): (d: Response)
    ensures d == Failure("Unexpected error occurred while processing requests: " + reqsText)
  {
    Failure("Unexpected error occurred while processing requests: " + reqsText)
  }

  /** Whether process_requests runs process_requests_v1 at all. */
  predicate RunsV1(reqs: Request) {
    EqualsOne(Get(reqs, "api-version"))
  }

  /** process_requests around the outcome `v1` of process_requests_v1 (only
      consulted when the version gate lets the request through); `body` is
      the decoded request object. */
  function Respond(body: seq<(string, Json)>, v1: V1Result): (d: Response)
    ensures !(RunsV1(ToMap(body)) && v1.V1Reply?) ==> "exit-code" in d && d["exit-code"] == JInt(1)
    ensures RunsV1(ToMap(body)) && v1.V1Reply? && "exit-code" in v1.reply ==>
              "exit-code" in d && d["exit-code"] == v1.reply["exit-code"]
  {
    var reqs := ToMap(body);
    if RunsV1(reqs) then
      match v1
      case V1Reply(resp) => WithRequestId(resp, reqs)
      case V1Raised(_) => UnexpectedError(Str(JObj(body)))
    else
      WithRequestId(Failure("Missing or invalid api version (" + Str(Get(reqs, "api-version")) + ")"), reqs)
  }

  /** Any api-version other than 1 is refused, whatever the ops, and the
      request-id is echoed when present. */
  lemma BadVersionRefused(body: seq<(string, Json)>, v1: V1Result)
    requires !RunsV1(ToMap(body))
    ensures var reqs := ToMap(body);
            var d := Respond(body, v1);
            d["exit-code"] == JInt(1)
            && d["stderr"] == JStr("Missing or invalid api version (" + Str(Get(reqs, "api-version")) + ")")
            && (Truthy(Get(reqs, "request-id")) <==> "request-id" in d)
            && ("request-id" in d ==> d["request-id"] == Get(reqs, "request-id"))
  {
  }

  /** With version 1 the reply is process_requests_v1's reply plus the
      request-id; an exception becomes exit-code 1. */
  lemma VersionOneAnswered(body: seq<(string, Json)>, v1: V1Result)
    requires RunsV1(ToMap(body))
    ensures var reqs := ToMap(body);
            var d := Respond(body, v1);
            (v1.V1Reply? ==> (forall k :: k in v1.reply && k != "request-id" ==> k in d && d[k] == v1.reply[k])
                             && (Truthy(Get(reqs, "request-id")) ==> d["request-id"] == Get(reqs, "request-id")))
            && (v1.V1Raised? ==> d["exit-code"] == JInt(1) && "request-id" !in d)
  {
  }

  /** An api-version written as the float 1.0 passes the gate as 1 does:
      process_requests_v1's reply is the answer. */
  lemma FloatVersionOneAnswered(ops: seq<Json>, v1: Response)
    ensures var body := [("api-version", JFloat("1.0", 1.0)), ("ops", JList(ops))];
            RunsV1(ToMap(body)) && Respond(body, V1Reply(v1)) == v1
  {
    var body := [("api-version", JFloat("1.0", 1.0)), ("ops", JList(ops))];
    assert Get(ToMap(body), "request-id") == JNull;
  }

  /** A missing api-version is reported as None. */
  lemma MissingVersionReportsNone(body: seq<(string, Json)>, v1: V1Result)
    requires "api-version" !in ToMap(body)
    ensures Respond(body, v1)["stderr"] == JStr("Missing or invalid api version (None)")
  {
  }
}
