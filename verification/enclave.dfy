/**
 * The enclave's request handling: the dispatcher that turns one decoded
 * request into a response by its path, and the framing that reads one
 * request from a connection in chunks. JSON decoding, UTF-8 decoding and the
 * clock are foreign; they enter as the parse outcome, the decode function and
 * the timestamp text.
 */
module Enclave {
  import opened Wrappers

  newtype byte = b: int | 0 <= b < 256

  /** The byte of `}`, whose arrival ends a request. */
  const CloseBrace: byte := 0x7D

  /**
   * A decoded JSON value. A number carries whether Python decodes it as an
   * `int` or a `float` and the text `str()` gives for it.
   */
  datatype Json =
    | JNull
    | JBool(b: bool)
    | JNumber(isInt: bool, text: string)
    | JString(s: string)
    | JArray(items: seq<Json>)
    | JObject(fields: map<string, Json>)

  /**
   * What the `try` of `process_request` gets from the request text before it
   * builds a response: not JSON (a JSONDecodeError from `json.loads`), another
   * exception with its `str()` (a RecursionError on deeply nested input, a
   * ValueError on an over-long integer literal, or an exception raised by the
   * log line, such as a UnicodeEncodeError when printing a lone surrogate),
   * or the decoded value.
   */
  datatype ParseResult = NotJson | Raised(message: string) | Parsed(value: Json)

  /** What the dispatcher returns: plain text, or a JSON object to be serialised. */
  datatype Response = PlainText(text: string) | JsonBody(fields: map<string, Json>)

  const ServerName: Json := JString("enclave")

  /** `dict.get(key)`: the value under `key`, absent when there is none. */
  function Get(fields: map<string, Json>, key: string): (r: Option<Json>)
    ensures r.Some? <==> key in fields
    ensures r.Some? ==> r.value == fields[key]
  {
    if key in fields then Some(fields[key]) else None
  }

  /** How `json.dumps` writes Python's `None`: as JSON null. */
  function ToJson(v: Option<Json>): Json {
    v.GetOr(JNull)
  }

  /**
   * Python's `str()` of the value `request.get('path')` returns: `None` for
   * a missing key or a JSON null, the string itself, `True`/`False`, the
   * number's text; lists and dicts are shown by a placeholder.
   */
  function PathText(v: Option<Json>): string {
    match v
    case None => "None"
    case Some(JNull) => "None"
    case Some(JBool(b)) => if b then "True" else "False"
    case Some(JNumber(_, text)) => text
    case Some(JString(s)) => s
    case Some(JArray(_)) => "[...]"
    case Some(JObject(_)) => "{...}"
  }

  /** Python's type name of a decoded value that is not a dict. */
  function TypeName(v: Json): string {
    match v
    case JNull => "NoneType"
    case JBool(_) => "bool"
    case JNumber(isInt, _) => if isInt then "int" else "float"
    case JString(_) => "str"
    case JArray(_) => "list"
    case JObject(_) => "dict"
  }

  /** The text of the AttributeError raised by `request.get` on a value that is not a dict. */
  function NoGetMessage(v: Json): string {
    "'" + TypeName(v) + "' object has no attribute 'get'"
  }

  /** The request's path, when the parse produced an object. */
  function RequestPath(parsed: ParseResult): Option<Json> {
    if parsed.Parsed? && parsed.value.JObject? then Get(parsed.value.fields, "path") else None
  }

  /** The response carries `"server": "enclave"`. */
  predicate FromEnclave(fields: map<string, Json>) {
    "server" in fields && fields["server"] == ServerName
  }

  /**
   * `process_request`: text that is not JSON is echoed back as plain text;
   * any other exception of the decoder, and JSON that is not an object, yield
   * an error object with the exception's text; an object is answered
   * by its path: `/` with a greeting, `/echo` with its data and headers, any
   * other or missing path with a generic message. Every JSON answer carries
   * the server name, and the three object answers are told apart by which
   * path the request names.
   */
  function ProcessRequest(data: string, parsed: ParseResult, timestamp: string): (r: Response)
    ensures r.PlainText? <==> parsed.NotJson?
    ensures parsed.NotJson? ==> r.text == "Enclave received: " + data
    ensures r.JsonBody? ==> FromEnclave(r.fields)
    ensures r.JsonBody? ==> ("error" in r.fields <==> !(parsed.Parsed? && parsed.value.JObject?))
    ensures r.JsonBody? ==> ("echo" in r.fields <==> RequestPath(parsed) == Some(JString("/echo")))
    ensures r.JsonBody? ==> ("request_method" in r.fields <==> RequestPath(parsed) == Some(JString("/")))
  {
    match parsed
    case NotJson =>
      PlainText("Enclave received: " + data)
    case Raised(message) =>
      JsonBody(map["error" := JString(message), "server" := ServerName])
    case Parsed(JObject(request)) =>
      var path := Get(request, "path");
      if path == Some(JString("/")) then
        JsonBody(map[
          "message" := JString("Hello from Enclave!"),
          "server" := ServerName,
          "timestamp" := JString(timestamp),
          "request_method" := ToJson(Get(request, "method"))])
      else if path == Some(JString("/echo")) then
        JsonBody(map[
          "echo" := Get(request, "data").GetOr(JString("")),
          "server" := ServerName,
          "headers_received" := Get(request, "headers").GetOr(JObject(map[]))])
      else
        JsonBody(map[
          "message" := JString("Path " + PathText(path) + " processed by Enclave"),
          "server" := ServerName,
          "timestamp" := JString(timestamp)])
    case Parsed(value) =>
      JsonBody(map["error" := JString(NoGetMessage(value)), "server" := ServerName])
  }

  /** Path `/`: the greeting, with the request's method (null when it has none). */
  lemma RootResponse(data: string, request: map<string, Json>, timestamp: string)
    requires Get(request, "path") == Some(JString("/"))
    ensures ProcessRequest(data, Parsed(JObject(request)), timestamp) ==
      JsonBody(map["message" := JString("Hello from Enclave!"), "server" := ServerName,
                   "timestamp" := JString(timestamp),
                   "request_method" := if "method" in request then request["method"] else JNull])
  {
  }

  /**
   * Path `/echo`: `echo` is the request's `data` whenever that key is present
   * (whatever its value), and the empty string only when it is absent;
   * `headers_received` is `headers`, or an empty object when absent.
   */
  lemma EchoResponse(data: string, request: map<string, Json>, timestamp: string)
    requires Get(request, "path") == Some(JString("/echo"))
    ensures var r := ProcessRequest(data, Parsed(JObject(request)), timestamp);
      && r.JsonBody? && r.fields.Keys == {"echo", "server", "headers_received"}
      && FromEnclave(r.fields)
      && ("data" in request ==> r.fields["echo"] == request["data"])
      && ("data" !in request ==> r.fields["echo"] == JString(""))
      && ("headers" in request ==> r.fields["headers_received"] == request["headers"])
      && ("headers" !in request ==> r.fields["headers_received"] == JObject(map[]))
  {
  }

  /** Any other or missing path: the generic message naming the path. */
  lemma OtherPathResponse(data: string, request: map<string, Json>, timestamp: string)
    requires Get(request, "path") != Some(JString("/"))
    requires Get(request, "path") != Some(JString("/echo"))
    ensures ProcessRequest(data, Parsed(JObject(request)), timestamp) ==
      JsonBody(map["message" := JString("Path " + PathText(Get(request, "path")) + " processed by Enclave"),
                   "server" := ServerName, "timestamp" := JString(timestamp)])
  {
  }

  /** A missing path is reported as `None`. */
  lemma MissingPathResponse(data: string, request: map<string, Json>, timestamp: string)
    requires "path" !in request
    ensures ProcessRequest(data, Parsed(JObject(request)), timestamp).fields["message"] ==
      JString("Path None processed by Enclave")
  {
    assert "Path " + PathText(None) + " processed by Enclave" == "Path None processed by Enclave";
    OtherPathResponse(data, request, timestamp);
  }

  /** JSON that is not an object: `request.get` raises, and the error object names the type. */
  lemma NonObjectResponse(data: string, value: Json, timestamp: string)
    requires !value.JObject?
    ensures ProcessRequest(data, Parsed(value), timestamp) ==
      JsonBody(map["error" := JString("'" + TypeName(value) + "' object has no attribute 'get'"),
                   "server" := ServerName])
  {
  }

  /** Any other exception raised before the response is built is reported with its text. */
  lemma RaisedResponse(data: string, message: string, timestamp: string)
    ensures ProcessRequest(data, Raised(message), timestamp) ==
      JsonBody(map["error" := JString(message), "server" := ServerName])
  {
  }

  /** The concatenation of a sequence of chunks. */
  function Concat(chunks: seq<seq<byte>>): seq<byte>
    decreases |chunks|
  {
    if chunks == [] then [] else Concat(chunks[..|chunks| - 1]) + chunks[|chunks| - 1]
  }

  /**
   * `data` is what the receive loop accumulates from `chunks` after reading
   * `n` of them: every chunk read is non-empty, only the last may contain `}`,
   * and reading stopped because the peer had nothing more to send, the next
   * chunk was empty, or the last chunk read contained `}`.
   */
  ghost predicate IsReceived(chunks: seq<seq<byte>>, data: seq<byte>, n: nat) {
    && n <= |chunks|
    && data == Concat(chunks[..n])
    && (forall j | 0 <= j < n :: chunks[j] != [])
    && (forall j | 0 <= j < n - 1 :: CloseBrace !in chunks[j])
    && (n == |chunks| || chunks[n] == [] || (n > 0 && CloseBrace in chunks[n - 1]))
  }

  /** The stopping rule determines how many chunks are read, and so the data. */
  lemma ReceivedIsUnique(chunks: seq<seq<byte>>, d1: seq<byte>, n1: nat, d2: seq<byte>, n2: nat)
    requires IsReceived(chunks, d1, n1) && IsReceived(chunks, d2, n2)
    ensures n1 == n2 && d1 == d2
  {
  }

  /** Nothing is received exactly when the first read finds the peer done or an empty chunk. */
  lemma NothingReceived(chunks: seq<seq<byte>>, data: seq<byte>, n: nat)
    requires IsReceived(chunks, data, n)
    ensures data == [] <==> (chunks == [] || chunks[0] == [])
  {
  }

  /** What a `recv` after the last chunk does: return nothing (the peer closed) or raise. */
  datatype StreamEnd = PeerClosed | ReadError

  /**
   * The receive loop of `run`: `chunks` are what successive `recv` calls
   * return; after them `recv` returns nothing or raises, as `end` says.
   * Chunks are appended until one is empty or one contains `}`. `failed`
   * tells that the loop reached a `recv` that raised.
   */
  method ReceiveRequest(chunks: seq<seq<byte>>, end: StreamEnd) returns (data: seq<byte>, n: nat, failed: bool)
    ensures IsReceived(chunks, data, n)
    ensures failed <==> end == ReadError && n == |chunks| && !(n > 0 && CloseBrace in chunks[n - 1])
  {
    data := [];
    n := 0;
    failed := false;
    while true
      invariant n <= |chunks|
      invariant data == Concat(chunks[..n])
      invariant forall j | 0 <= j < n :: chunks[j] != [] && CloseBrace !in chunks[j]
      invariant !failed
      decreases |chunks| - n
    {
      if n == |chunks| && end == ReadError {
        failed := true;
        break;
      }
      var chunk: seq<byte> := if n < |chunks| then chunks[n] else [];
      if chunk == [] {
        break;
      }
      assert chunks[..n + 1][..n] == chunks[..n];
      data := data + chunk;
      n := n + 1;
      if CloseBrace in chunk {
        break;
      }
    }
  }

  /** What became of one accepted connection: the response sent, if any, and whether the socket was closed. */
  datatype Outcome = Outcome(sent: Option<Response>, closed: bool)

  /**
   * One turn of the accept loop: receive, and when anything arrived decode
   * it, dispatch it and send the response; then close the socket. When a
   * `recv` raises, or the bytes are not valid UTF-8 and the decode raises,
   * the accept loop's handler logs it: nothing is sent and `close` is never
   * called.
   */
  method ServeConnection(chunks: seq<seq<byte>>, end: StreamEnd, decode: seq<byte> -> Option<string>,
                         parse: string -> ParseResult, timestamp: string)
    returns (data: seq<byte>, n: nat, failed: bool, outcome: Outcome)
    ensures IsReceived(chunks, data, n)
    ensures failed <==> end == ReadError && n == |chunks| && !(n > 0 && CloseBrace in chunks[n - 1])
    ensures failed ==> outcome == Outcome(None, false)
    ensures !failed && data == [] ==> outcome == Outcome(None, true)
    ensures !failed && data != [] && decode(data).None? ==> outcome == Outcome(None, false)
    ensures !failed && data != [] && decode(data).Some? ==>
      var text := decode(data).value;
      outcome == Outcome(Some(ProcessRequest(text, parse(text), timestamp)), true)
  {
    data, n, failed := ReceiveRequest(chunks, end);
    if failed {
      return data, n, failed, Outcome(None, false);
    }
    if data == [] {
      return data, n, failed, Outcome(None, true);
    }
    var text := decode(data);
    if text.None? {
      return data, n, failed, Outcome(None, false);
    }
    var response := ProcessRequest(text.value, parse(text.value), timestamp);
    outcome := Outcome(Some(response), true);
  }
}
