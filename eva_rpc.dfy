/**
 * The pure core of `EvaClient` (src/eva_client.py): the `EvaAPIError`
 * record, the read-only write guard, the JSON-RPC envelope, and how `call`
 * turns the outcome of the HTTP exchange into a result or an error.
 */
module EvaRpc {
  import opened Wrappers
  import opened PyJson
  import opened PyText

  /** `EvaAPIError`: a message, an optional numeric code and a details dict (`{}` when none is given). */
  datatype ApiError = ApiError(message: string, code: Option<int>, details: map<string, Json>)

  // ---------------------------------------------------------------------
  // Write guard (`_check_write_operation`)
  // ---------------------------------------------------------------------

  /** The substrings that mark a backend method as a write. */
  const WriteOperations: seq<string> := ["create", "update", "delete", "append", "set_", "do_"]

  /** The code of the refusal raised in read-only mode. */
  const ReadOnlyCode: int := -32001

  /** `any(op in method.lower() for op in write_operations)`. */
  predicate IsWriteMethod(name: string) {
    exists op :: op in WriteOperations && Contains(Lower(name), op)
  }

  /** The message of the refusal; it names the blocked method. */
  function ReadOnlyMessage(name: string): string {
    RefusalLead + name + RefusalTail
  }

  const RefusalLead: string := "Write operation '"
  const RefusalTail: string := "' is not allowed in " + ReadOnlyPhrase + ". Set read_only=False to enable write operations."
  const ReadOnlyPhrase: string := "read-only mode"

  /** The refusal the guard raises for `name`, or `None` when the call may proceed. */
  function CheckWriteOperation(readOnly: bool, name: string): Option<ApiError> {
    if readOnly && IsWriteMethod(name) then
      Some(ApiError(ReadOnlyMessage(name), Some(ReadOnlyCode), map[]))
    else
      None
  }

  /** In read-only mode a method whose lower-cased name contains a write substring is refused with -32001. */
  lemma ReadOnlyRefusesWrites(name: string, op: string)
    requires op in WriteOperations && Contains(Lower(name), op)
    ensures CheckWriteOperation(true, name) == Some(ApiError(ReadOnlyMessage(name), Some(-32001), map[]))
  {
  }

  /** With `read_only` off the guard lets every method name through. */
  lemma ReadWriteNeverRefuses(name: string)
    ensures CheckWriteOperation(false, name) == None
  {
  }

  /** The guard decides on the lower-cased name only: names equal up to case get the same decision. */
  lemma GuardIgnoresCase(readOnly: bool, a: string, b: string)
    requires Lower(a) == Lower(b)
    ensures CheckWriteOperation(readOnly, a).Some? == CheckWriteOperation(readOnly, b).Some?
  {
  }

  /** The refusal's message contains the method name and the phrase "read-only mode". */
  lemma RefusalMessage(name: string)
    ensures Contains(ReadOnlyMessage(name), name)
    ensures Contains(ReadOnlyMessage(name), ReadOnlyPhrase)
  {
    ContainsInfix(RefusalLead, name, RefusalTail);
    ContainsInfix("' is not allowed in ", ReadOnlyPhrase, ". Set read_only=False to enable write operations.");
    ContainsWithin(RefusalLead + name, RefusalTail, "", ReadOnlyPhrase);
    assert RefusalLead + name + RefusalTail + "" == ReadOnlyMessage(name);
  }

  /**
   * The guard is a textual heuristic: a write substring anywhere in the
   * name, in any letter case, blocks it, whatever the rest of the name says.
   */
  lemma WriteOperationAnywhere(a: string, w: string, b: string)
    requires Lower(w) in WriteOperations
    ensures IsWriteMethod(a + w + b)
  {
    LowerConcat(a + w, b);
    LowerConcat(a, w);
    ContainsInfix(Lower(a), Lower(w), Lower(b));
  }

  /** An occurrence of `p` in `a + [sep] + b` lies in `a` or in `b` when `p` does not contain `sep`. */
  lemma {:induction false} SplitAtSeparator(a: string, sep: char, b: string, p: string)
    requires sep !in p
    requires Contains(a + [sep] + b, p)
    ensures Contains(a, p) || Contains(b, p)
  {
    var s := a + [sep] + b;
    ContainsIff(s, p);
    var k :| OccursAt(s, p, k);
    if k + |p| <= |a| {
      assert a[k..k + |p|] == s[k..k + |p|];
      ContainsAt(a, p, k);
    } else if k > |a| {
      assert b[k - |a| - 1..k - |a| - 1 + |p|] == s[k..k + |p|];
      ContainsAt(b, p, k - |a| - 1);
    } else {
      CharOfOccurrence(s, p, k, |a| - k);
      assert false;
    }
  }

  /** Every character of an occurrence of `p` is a character of `p`. */
  lemma CharOfOccurrence(s: string, p: string, k: int, j: int)
    requires OccursAt(s, p, k) && 0 <= j < |p|
    ensures s[k + j] in p
  {
    assert s[k..k + |p|][j] == s[k + j];
  }

  /** No write substring occurs in `s`, in any letter case. */
  predicate FreeOfWriteOperations(s: string) {
    && !FoldedContainsFrom(s, "create", 0) && !FoldedContainsFrom(s, "update", 0)
    && !FoldedContainsFrom(s, "delete", 0) && !FoldedContainsFrom(s, "append", 0)
    && !FoldedContainsFrom(s, "set_", 0) && !FoldedContainsFrom(s, "do_", 0)
  }

  /** A dotted name `Entity.verb` whose two parts hold no write substring is never refused. */
  lemma DottedReadName(entity: string, verb: string, name: string)
    requires name == entity + "." + verb
    requires FreeOfWriteOperations(entity) && FreeOfWriteOperations(verb)
    ensures !IsWriteMethod(name)
  {
    LowerConcat(entity + ".", verb);
    LowerConcat(entity, ".");
    assert Lower(name) == Lower(entity) + ['.'] + Lower(verb);
    forall op | op in WriteOperations ensures !Contains(Lower(name), op) {
      FoldedContains(entity, op);
      FoldedContains(verb, op);
      if Contains(Lower(name), op) {
        SplitAtSeparator(Lower(entity), '.', Lower(verb), op);
      }
    }
  }

  /** `CmfTask.get`, `.list` and `.count` pass the guard even in read-only mode. */
  lemma TaskReadsAllowed()
    ensures !IsWriteMethod("CmfTask.get") && !IsWriteMethod("CmfTask.list")
    ensures !IsWriteMethod("CmfTask.count")
  {
    assert FreeOfWriteOperations("CmfTask");
    DottedReadName("CmfTask", "get", "CmfTask.get");
    DottedReadName("CmfTask", "list", "CmfTask.list");
    DottedReadName("CmfTask", "count", "CmfTask.count");
  }

  /** `CmfProject.get`, `.list` and `.count` pass the guard even in read-only mode. */
  lemma ProjectReadsAllowed()
    ensures !IsWriteMethod("CmfProject.get") && !IsWriteMethod("CmfProject.list")
    ensures !IsWriteMethod("CmfProject.count")
  {
    assert FreeOfWriteOperations("CmfProject");
    DottedReadName("CmfProject", "get", "CmfProject.get");
    DottedReadName("CmfProject", "list", "CmfProject.list");
    DottedReadName("CmfProject", "count", "CmfProject.count");
  }

  /** The person, document, comment, list and audit read methods pass the guard even in read-only mode. */
  lemma OtherReadsAllowed()
    ensures !IsWriteMethod("CmfPerson.get") && !IsWriteMethod("CmfPerson.list")
    ensures !IsWriteMethod("CmfDocument.get") && !IsWriteMethod("CmfDocument.list")
    ensures !IsWriteMethod("CmfComment.list")
    ensures !IsWriteMethod("CmfList.get") && !IsWriteMethod("CmfList.list")
    ensures !IsWriteMethod("CmfAudit.list")
  {
    PersonReadsAllowed();
    DocumentReadsAllowed();
    CommentListAuditReadsAllowed();
  }

  lemma PersonReadsAllowed()
    ensures !IsWriteMethod("CmfPerson.get") && !IsWriteMethod("CmfPerson.list")
  {
    DottedReadName("CmfPerson", "get", "CmfPerson.get");
    DottedReadName("CmfPerson", "list", "CmfPerson.list");
  }

  lemma DocumentReadsAllowed()
    ensures !IsWriteMethod("CmfDocument.get") && !IsWriteMethod("CmfDocument.list")
  {
    DottedReadName("CmfDocument", "get", "CmfDocument.get");
    DottedReadName("CmfDocument", "list", "CmfDocument.list");
  }

  lemma CommentListAuditReadsAllowed()
    ensures !IsWriteMethod("CmfComment.list")
    ensures !IsWriteMethod("CmfList.get") && !IsWriteMethod("CmfList.list")
    ensures !IsWriteMethod("CmfAudit.list")
  {
    CommentReadsAllowed();
    ListReadsAllowed();
    DottedReadName("CmfAudit", "list", "CmfAudit.list");
  }

  lemma CommentReadsAllowed()
    ensures !IsWriteMethod("CmfComment.list")
  {
    DottedReadName("CmfComment", "list", "CmfComment.list");
  }

  lemma ListReadsAllowed()
    ensures !IsWriteMethod("CmfList.get") && !IsWriteMethod("CmfList.list")
  {
    DottedReadName("CmfList", "get", "CmfList.get");
    DottedReadName("CmfList", "list", "CmfList.list");
  }

  /**
   * The create and update methods are refused in read-only mode, and so is
   * a read whose name merely contains a write word (`get_update_history`).
   */
  lemma WriteMethodsBlocked()
    ensures IsWriteMethod("CmfTask.create") && IsWriteMethod("CmfTask.update")
    ensures IsWriteMethod("CmfComment.create") && IsWriteMethod("CmfList.create")
    ensures IsWriteMethod("get_update_history")
  {
    assert Lower("create") == "create";
    assert Lower("update") == "update";
    assert "CmfTask." + "create" + "" == "CmfTask.create";
    WriteOperationAnywhere("CmfTask.", "create", "");
    assert "CmfTask." + "update" + "" == "CmfTask.update";
    WriteOperationAnywhere("CmfTask.", "update", "");
    assert "CmfComment." + "create" + "" == "CmfComment.create";
    WriteOperationAnywhere("CmfComment.", "create", "");
    assert "CmfList." + "create" + "" == "CmfList.create";
    WriteOperationAnywhere("CmfList.", "create", "");
    assert "get_" + "update" + "_history" == "get_update_history";
    WriteOperationAnywhere("get_", "update", "_history");
  }

  // ---------------------------------------------------------------------
  // JSON-RPC envelope (`_build_request`)
  // ---------------------------------------------------------------------

  /** The protocol tag every request carries. */
  const ProtocolVersion: string := "2.2"

  /** A JSON-RPC request: protocol tag, method, call identifier and keyword parameters. */
  datatype RpcRequest = RpcRequest(jsonrpc: string, methodName: string, callid: string, kwargs: map<string, Json>)

  /**
   * `_build_request(method, kwargs)`. The call identifier, a fresh uuid4 in
   * the source, is supplied by the caller.
   */
  function BuildRequest(name: string, kwargs: Option<map<string, Json>>, callid: string): RpcRequest {
    RpcRequest(ProtocolVersion, name, callid, if kwargs.Some? then kwargs.value else map[])
  }

  /** The four fields of an envelope. */
  const EnvelopeKeys: set<string> := {"jsonrpc", "method", "callid", "kwargs"}

  /** The dict that is serialised as the POST body. */
  function Encode(r: RpcRequest): (j: Json)
    ensures j.JObject? && j.fields.Keys == EnvelopeKeys
  {
    JObject(map[
      "jsonrpc" := JString(r.jsonrpc),
      "method" := JString(r.methodName),
      "callid" := JString(r.callid),
      "kwargs" := JObject(r.kwargs)])
  }

  /** How a receiver reads an envelope back; `None` for anything not shaped like one. */
  function Decode(j: Json): Option<RpcRequest> {
    if j.JObject? && j.fields.Keys == EnvelopeKeys
      && j.fields["jsonrpc"].JString? && j.fields["method"].JString?
      && j.fields["callid"].JString? && j.fields["kwargs"].JObject?
    then
      Some(RpcRequest(j.fields["jsonrpc"].s, j.fields["method"].s, j.fields["callid"].s, j.fields["kwargs"].fields))
    else
      None
  }

  /** Reading a serialised envelope gives the envelope back. */
  lemma DecodeEncode(r: RpcRequest)
    ensures Decode(Encode(r)) == Some(r)
  {
  }

  /**
   * The body of every POST has exactly the keys `jsonrpc`, `method`,
   * `callid` and `kwargs`; `jsonrpc` is "2.2", the method and the
   * parameters are copied verbatim, and absent parameters become `{}`.
   */
  lemma BuildRequestWire(name: string, kwargs: Option<map<string, Json>>, callid: string)
    ensures var j := Encode(BuildRequest(name, kwargs, callid));
      && j.fields.Keys == EnvelopeKeys
      && j.fields["jsonrpc"] == JString("2.2")
      && j.fields["method"] == JString(name)
      && j.fields["callid"] == JString(callid)
      && j.fields["kwargs"] == JObject(if kwargs.Some? then kwargs.value else map[])
      && Decode(j) == Some(RpcRequest("2.2", name, callid, j.fields["kwargs"].fields))
  {
  }

  // ---------------------------------------------------------------------
  // The HTTP exchange and how `call` classifies its outcome
  // ---------------------------------------------------------------------

  /** What `response.json()` gives: a decoded value, or the text of the decoding error. */
  datatype Body = Parsed(json: Json) | Unparseable(decodeError: string)

  /**
   * What the POST produces: a network-level failure (`httpx.RequestError`,
   * with its text), or a response with a status code, the text httpx gives
   * its `HTTPStatusError`, and a body.
   */
  datatype HttpOutcome =
    | NetworkFailure(reason: string)
    | Response(status: int, statusErrorText: string, body: Body)

  /** The prefix of every error re-raised by the generic `except Exception` handler. */
  const UnexpectedPrefix: string := "Unexpected error: "

  /** `raise_for_status()` passes only the 2xx statuses. */
  predicate IsSuccessStatus(status: int) {
    200 <= status < 300
  }

  /**
   * What the `try` block of `call` does with the body of a 2xx response:
   * the value it returns, or the text of the exception raised inside it
   * (an `EvaAPIError` for a backend `error`, a TypeError or AttributeError
   * for a body that is not a dict).
   */
  function InterpretBody(body: Body): Result<Json, string> {
    match body
    case Unparseable(e) => Failure(e)
    case Parsed(JObject(fields)) =>
      if "error" in fields then
        match fields["error"]
        case JObject(e) => Failure(PyStr(Get(e, "message", JString("Unknown error"))))
        case other => Failure("'" + TypeName(other) + "' object has no attribute 'get'")
      else
        Success(Get(fields, "result", JNull))
    case Parsed(JArray(items)) =>
      if JString("error") in items then Failure("list indices must be integers or slices, not str")
      else Failure("'list' object has no attribute 'get'")
    case Parsed(JString(s)) =>
      if Contains(s, "error") then Failure("string indices must be integers, not 'str'")
      else Failure("'str' object has no attribute 'get'")
    case Parsed(other) => Failure("argument of type '" + TypeName(other) + "' is not iterable")
  }

  /** The `try`/`except` part of `call`: the POST's outcome becomes a value or an `EvaAPIError`. */
  function Exchange(outcome: HttpOutcome): Result<Json, ApiError> {
    match outcome
    case NetworkFailure(reason) =>
      Failure(ApiError("Request error: " + reason, None, map[]))
    case Response(status, statusErrorText, body) =>
      if !IsSuccessStatus(status) then
        Failure(ApiError("HTTP error: " + IntString(status), None, map["response" := JString(statusErrorText)]))
      else
        match InterpretBody(body)
        case Success(v) => Success(v)
        case Failure(text) => Failure(ApiError(UnexpectedPrefix + text, None, map[]))
  }

  /** `call(method, **kwargs)`: the guard first, then the exchange. */
  function CallResult(readOnly: bool, name: string, outcome: HttpOutcome): Result<Json, ApiError> {
    match CheckWriteOperation(readOnly, name)
    case Some(refusal) => Failure(refusal)
    case None => Exchange(outcome)
  }

  /** A 2xx response whose body is a dict without `error`, returning `result` (or `None` if absent). */
  ghost predicate DeliversResult(outcome: HttpOutcome, v: Json) {
    && outcome.Response?
    && IsSuccessStatus(outcome.status)
    && outcome.body.Parsed?
    && outcome.body.json.JObject?
    && "error" !in outcome.body.json.fields
    && v == Get(outcome.body.json.fields, "result", JNull)
  }

  /**
   * `call` returns a value exactly when the guard lets the method through
   * and the response is a 2xx dict without `error`; the value is what is
   * under `result`, or `None` when that key is absent.
   */
  lemma ReturnsResultIff(readOnly: bool, name: string, outcome: HttpOutcome, v: Json)
    ensures CallResult(readOnly, name, outcome) == Success(v)
        <==> !(readOnly && IsWriteMethod(name)) && DeliversResult(outcome, v)
  {
    if CallResult(readOnly, name, outcome) == Success(v) {
      var body := outcome.body;
      assert body.Parsed? && body.json.JObject?;
    }
  }

  /**
   * A refused method fails the same way whatever the transport would have
   * answered: the guard decides before any request exists.
   */
  lemma RefusalPrecedesTransport(name: string, o1: HttpOutcome, o2: HttpOutcome)
    requires IsWriteMethod(name)
    ensures CallResult(true, name, o1) == CallResult(true, name, o2)
    ensures CallResult(true, name, o1) == Failure(ApiError(ReadOnlyMessage(name), Some(ReadOnlyCode), map[]))
  {
  }

  /**
   * Only the guard's refusal carries a code: transport, HTTP, decoding and
   * backend errors all reach the caller with code `None`.
   */
  lemma OnlyRefusalHasCode(readOnly: bool, name: string, outcome: HttpOutcome)
    requires CallResult(readOnly, name, outcome).Failure?
    ensures CallResult(readOnly, name, outcome).error.code.Some? <==> readOnly && IsWriteMethod(name)
    ensures CallResult(readOnly, name, outcome).error.code.Some? ==>
              CallResult(readOnly, name, outcome).error.code == Some(ReadOnlyCode)
  {
  }

  /** Any non-2xx status is an "HTTP error: <status>" without code, even if the body carries `error`. */
  lemma Non2xxIsHttpError(name: string, readOnly: bool, status: int, text: string, body: Body)
    requires !(readOnly && IsWriteMethod(name))
    requires !IsSuccessStatus(status)
    ensures CallResult(readOnly, name, Response(status, text, body))
         == Failure(ApiError("HTTP error: " + IntString(status), None, map["response" := JString(text)]))
  {
  }

  /**
   * A backend `error` on a 2xx response is re-raised by the generic
   * handler: the message becomes "Unexpected error: <backend message>" and
   * still contains the backend's message, while its code is dropped.
   */
  lemma BackendErrorRewrapped(readOnly: bool, name: string, status: int, text: string,
                              fields: map<string, Json>, error: map<string, Json>, msg: string)
    requires !(readOnly && IsWriteMethod(name)) && IsSuccessStatus(status)
    requires "error" in fields && fields["error"] == JObject(error)
    requires "message" in error && error["message"] == JString(msg)
    ensures CallResult(readOnly, name, Response(status, text, Parsed(JObject(fields))))
         == Failure(ApiError(UnexpectedPrefix + msg, None, map[]))
    ensures Contains(UnexpectedPrefix + msg, msg)
  {
    ContainsInfix(UnexpectedPrefix, msg, "");
    assert UnexpectedPrefix + msg + "" == UnexpectedPrefix + msg;
  }

  /** The backend's error without a `message` is reported as "Unexpected error: Unknown error". */
  lemma BackendErrorWithoutMessage(status: int, text: string, fields: map<string, Json>, error: map<string, Json>)
    requires IsSuccessStatus(status)
    requires "error" in fields && fields["error"] == JObject(error) && "message" !in error
    ensures Exchange(Response(status, text, Parsed(JObject(fields))))
         == Failure(ApiError("Unexpected error: Unknown error", None, map[]))
  {
    assert UnexpectedPrefix + "Unknown error" == "Unexpected error: Unknown error";
  }

  /** A network failure is a "Request error: <text>" without code. */
  lemma NetworkFailureIsRequestError(readOnly: bool, name: string, reason: string)
    requires !(readOnly && IsWriteMethod(name))
    ensures CallResult(readOnly, name, NetworkFailure(reason)) == Failure(ApiError("Request error: " + reason, None, map[]))
  {
  }

  /** A body `{"result": {"code": "TASK-123", ...}}` on status 200: `CmfTask.get` returns the inner dict. */
  lemma SuccessfulCallExample(task: map<string, Json>)
    ensures CallResult(true, "CmfTask.get", Response(200, "", Parsed(JObject(map["result" := JObject(task)]))))
         == Success(JObject(task))
  {
    TaskReadsAllowed();
  }

  /**
   * A body `{"error": {"code": -32600, "message": "Invalid Request"}}` on
   * status 200 fails with a message that contains "Invalid Request".
   */
  lemma ApiErrorExample()
    ensures var r := CallResult(true, "CmfTask.get", Response(200, "",
              Parsed(JObject(map["error" := JObject(map["code" := JInt(-32600), "message" := JString("Invalid Request")])]))));
      && r.Failure? && r.error.code == None && Contains(r.error.message, "Invalid Request")
  {
    TaskReadsAllowed();
    var error := map["code" := JInt(-32600), "message" := JString("Invalid Request")];
    BackendErrorRewrapped(true, "CmfTask.get", 200, "", map["error" := JObject(error)], error, "Invalid Request");
  }
}
