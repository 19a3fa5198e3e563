/** The JSON-RPC client of the target daemon (`NVMeRPCClient`), after section 4 (request
    object) and section 5 (response object) of the JSON-RPC 2.0 Specification.

    The socket is replaced by what crosses it: the request written by `sendall` is
    appended to `sent`, and the successive results of `recv(4096)` are a given finite
    sequence of chunks, after which the peer reads as closed. `json.loads` is the
    parameter `parse`; `json.dumps` is not modelled (the request stays a value). */
module JsonRpc {
  import opened Wrappers
  import opened JsonValues
  import opened Text

  /** How `call` ends. */
  datatype CallResult =
    | Returned(result: Json)        // `return response['result']`
    | RpcException(message: Json)   // `NVMeRPCException(message=response['error']['message'])`
    | KeyError(key: string)         // a missing key in the response
    | TypeError                     // the response, or its 'error' member, is not a mapping

  /** One request written to a socket connected to `(host, port)`. */
  datatype Exchange = Exchange(host: string, port: int, request: map<string, Json>)

  /** The URL the client records: `http://<ip>:<port>/jsonrpc`. */
  function Url(ipAddress: string, port: int): string
  {
    "http://" + ipAddress + ":" + IntToDecimal(port) + "/jsonrpc"
  }

  /** Reads the port back out of a URL of that shape: the text between the last ':'
      and the trailing "/jsonrpc". */
  function UrlPort(url: string): Option<int>
  {
    var prefix := "http://";
    var suffix := "/jsonrpc";
    if |url| >= |prefix| + |suffix| && url[..|prefix|] == prefix && url[|url| - |suffix|..] == suffix then
      ParseDecimal(LastComponent(url[|prefix|..|url| - |suffix|], ':'))
    else
      None
  }

  /** The last piece after `sep` of `a + [sep] + b` is `b` when `b` holds no `sep`. */
  lemma LastComponentAfter(a: string, b: string, sep: char)
    requires sep !in b
    ensures LastComponent(a + [sep] + b, sep) == b
  {
    var s := a + [sep] + b;
    var r := LastComponent(s, sep);
    LastComponentIsSuffix(s, sep);
    assert forall j :: |s| - |r| <= j < |s| ==> s[j] == r[j - (|s| - |r|)];
    assert forall j :: |s| - |b| <= j < |s| ==> s[j] == b[j - (|s| - |b|)];
    assert s[|s| - |b| - 1] == sep;
    assert |r| == |b|;
    assert r == s[|s| - |b|..] == b;
  }

  /** The URL names the port the client connects to, whatever the address. */
  lemma UrlNamesPort(ipAddress: string, port: int)
    ensures UrlPort(Url(ipAddress, port)) == Some(port)
  {
    var d := IntToDecimal(port);
    var u := Url(ipAddress, port);
    assert u == "http://" + (ipAddress + ":" + d) + "/jsonrpc";
    assert u[7..|u| - 8] == ipAddress + [':'] + d;
    assert ':' !in d by {
      if port < 0 {
        assert d == "-" + NatToDecimal(-port);
      }
    }
    LastComponentAfter(ipAddress, d, ':');
    DecimalRoundTrip(port);
  }

  /** The request object of section 4 of the JSON-RPC 2.0 Specification as `call` builds
      it: version "2.0", the method, the fixed id 1, and `params` exactly when the
      given parameters are truthy. */
  predicate IsEnvelope(req: map<string, Json>, methodName: string, params: Option<Json>)
  {
    req.Keys == {"jsonrpc", "method", "id"} + (if Given(params) then {"params"} else {}) &&
    req["jsonrpc"] == JString("2.0") &&
    req["method"] == JString(methodName) &&
    req["id"] == JInt(1) &&
    (Given(params) ==> req["params"] == params.value)
  }

  /** The envelope is determined by the method and the parameters. */
  lemma EnvelopeUnique(a: map<string, Json>, b: map<string, Json>, methodName: string, params: Option<Json>)
    requires IsEnvelope(a, methodName, params) && IsEnvelope(b, methodName, params)
    ensures a == b
  {
  }

  /** Builds `req` key by key, as `call` does. */
  method BuildRequest(methodName: string, params: Option<Json>) returns (req: map<string, Json>)
    ensures IsEnvelope(req, methodName, params)
  {
    req := map[];
    req := req["jsonrpc" := JString("2.0")];
    req := req["method" := JString(methodName)];
    req := req["id" := JInt(1)];
    if Given(params) {
      req := req["params" := params.value];
    }
  }

  /** What the `i`-th `recv` returns: the given chunks, then "" once they run out. */
  function Recv(chunks: seq<string>, i: nat): string
  {
    if i < |chunks| then chunks[i] else ""
  }

  /** The bytes the first `n` receives returned, in order. */
  function Received(chunks: seq<string>, n: nat): string
  {
    if n == 0 then "" else Received(chunks, n - 1) + Recv(chunks, n - 1)
  }

  /** The value `response` holds when the read loop ends, when it resumes at receive
      number `i` with buffer `buf`: each receive is appended and the buffer re-parsed;
      the first successful parse ends the loop, and a receive of "" (peer closed) ends
      it after that last parse attempt, leaving `response` at its initial `{}`. */
  function Frame(parse: string -> Option<Json>, chunks: seq<string>, i: nat, buf: string): Json
    decreases |chunks| - i
  {
    var newdata := Recv(chunks, i);
    var buf' := buf + newdata;
    match parse(buf')
    case Some(doc) => doc
    case None => if newdata == "" then JObject(map[]) else Frame(parse, chunks, i + 1, buf')
  }

  /** The read loop of `call`. */
  method ReadResponse(parse: string -> Option<Json>, chunks: seq<string>) returns (response: Json)
    ensures response == Frame(parse, chunks, 0, "")
  {
    var buf := "";
    var closed := false;
    response := JObject(map[]);
    var i := 0;
    while !closed
      invariant i <= |chunks| + 1
      invariant !closed ==> i <= |chunks| && response == JObject(map[])
      invariant !closed ==> Frame(parse, chunks, i, buf) == Frame(parse, chunks, 0, "")
      invariant closed ==> response == JObject(map[]) == Frame(parse, chunks, 0, "")
      decreases |chunks| + 1 - i, !closed
    {
      var newdata := Recv(chunks, i);
      if newdata == "" {
        closed := true;
      }
      buf := buf + newdata;
      var parsed := parse(buf);
      i := i + 1;
      if parsed.None? {
        continue;
      }
      response := parsed.value;
      break;
    }
  }

  /** What `call` does with the parsed response: a mapping with 'error' raises
      NVMeRPCException carrying `error['message']`; otherwise 'result' is returned.
      Subscripting a decoded value that is not a mapping (a list, a string, a number,
      a boolean or null) raises TypeError; a mapping without the key raises KeyError. */
  function Interpret(response: Json): (r: CallResult)
    ensures r.RpcException? <==>
      response.JObject? && "error" in response.fields &&
      response.fields["error"].JObject? && "message" in response.fields["error"].fields
    ensures r.RpcException? ==> r.message == response.fields["error"].fields["message"]
    ensures r.Returned? <==>
      response.JObject? && "error" !in response.fields && "result" in response.fields
    ensures r.Returned? ==> r.result == response.fields["result"]
    ensures r == KeyError("message") <==>
      response.JObject? && "error" in response.fields &&
      response.fields["error"].JObject? && "message" !in response.fields["error"].fields
    ensures r == KeyError("result") <==>
      response.JObject? && "error" !in response.fields && "result" !in response.fields
    ensures r.TypeError? <==>
      !response.JObject? || ("error" in response.fields && !response.fields["error"].JObject?)
    ensures r.KeyError? ==> r.key in {"message", "result"}
  {
    match response
    case JObject(fields) =>
      if "error" in fields then
        match fields["error"]
        case JObject(error) => if "message" in error then RpcException(error["message"]) else KeyError("message")
        case _ => TypeError
      else if "result" in fields then Returned(fields["result"])
      else KeyError("result")
    case _ => TypeError
  }

  /** The loop ends with the document of the first buffer that parses: if receives
      `i` to `k - 1` returned data and none of their buffers parsed, and the buffer
      after receive `k` parses as `doc`, the response is `doc`. */
  lemma {:induction false} FrameFirstParse(parse: string -> Option<Json>, chunks: seq<string>, i: nat, k: nat, doc: Json)
    requires i <= k
    requires forall j :: i <= j < k ==> Recv(chunks, j) != "" && parse(Received(chunks, j + 1)).None?
    requires parse(Received(chunks, k + 1)) == Some(doc)
    ensures Frame(parse, chunks, i, Received(chunks, i)) == doc
    decreases k - i
  {
    if i < k {
      FrameFirstParse(parse, chunks, i + 1, k, doc);
    }
  }

  /** If the peer closes (receive `k` returns "") before any buffer parses, the loop
      ends with `response` still `{}`, and `call` fails looking up 'result' rather than
      raising NVMeRPCException. */
  lemma {:induction false} FrameClosedFirst(parse: string -> Option<Json>, chunks: seq<string>, i: nat, k: nat)
    requires i <= k
    requires forall j :: i <= j < k ==> Recv(chunks, j) != ""
    requires forall j :: i < j <= k + 1 ==> parse(Received(chunks, j)).None?
    requires Recv(chunks, k) == ""
    ensures Frame(parse, chunks, i, Received(chunks, i)) == JObject(map[])
    ensures Interpret(Frame(parse, chunks, i, Received(chunks, i))) == KeyError("result")
    decreases k - i
  {
    assert parse(Received(chunks, i + 1)).None?;
    if i < k {
      FrameClosedFirst(parse, chunks, i + 1, k);
    }
  }

  /** Framing does not depend on how the bytes were split: a message that arrives as
      two fragments, the first of which does not parse alone, gives the same response
      as the whole message in one receive. */
  lemma FragmentationInvariant(parse: string -> Option<Json>, a: string, b: string)
    requires a != "" && b != "" && parse(a).None?
    ensures Frame(parse, [a, b], 0, "") == Frame(parse, [a + b], 0, "")
  {
    var two, one := [a, b], [a + b];
    assert "" + a == a && "" + (a + b) == a + b && a + b + "" == a + b;
    assert Recv(two, 0) == a && Recv(two, 1) == b && Recv(two, 2) == "";
    assert Recv(one, 0) == a + b && Recv(one, 1) == "";
    assert Frame(parse, two, 0, "") == Frame(parse, two, 1, a);
    match parse(a + b)
    case Some(doc) =>
      assert Frame(parse, two, 1, a) == doc;
      assert Frame(parse, one, 0, "") == doc;
    case None =>
      assert Frame(parse, two, 1, a) == Frame(parse, two, 2, a + b) == JObject(map[]);
      assert Frame(parse, one, 0, "") == Frame(parse, one, 1, a + b) == JObject(map[]);
  }

  /** A response carrying an error raises it, whatever else the response holds; one
      without returns its result. */
  lemma InterpretExample()
    ensures Interpret(JObject(map["data" := JNull, "error" := JObject(map["message" := JString("Some error")])]))
      == RpcException(JString("Some error"))
    ensures Interpret(JObject(map["result" := JObject(map["data" := JString("some_content")])]))
      == Returned(JObject(map["data" := JString("some_content")]))
  {
  }

  /** Python binds `call(self, method, params)` only when `params` is passed: the
      parameter has no default, so leaving it out raises TypeError before the body
      runs. */
  function BindsAsWritten(params: Option<Json>): (ok: bool)
    ensures ok <==> params.Some?
  {
    match params
    case None => false
    case Some(_) => true
  }

  class RpcClient {
    const url: string
    const serverIp: string
    const port: int
    const instanceId: int
    const headers: map<string, string>
    var payload: map<string, Json>
    /** The requests written to the socket, one per `call`. */
    var sent: seq<Exchange>

    /** `payload` keeps the version tag and the fixed id it was created with. */
    ghost predicate Valid()
      reads this
    {
      "jsonrpc" in payload && payload["jsonrpc"] == JString("2.0") &&
      "id" in payload && payload["id"] == JInt(1)
    }

    constructor(ipAddress: string := "127.0.0.1", port: int := 4420, instanceId: int := 0)
      ensures Valid()
      ensures url == Url(ipAddress, port + instanceId)
      ensures serverIp == ipAddress && this.port == port && this.instanceId == instanceId
      ensures headers == map["content-type" := "application/json"]
      ensures payload == map["jsonrpc" := JString("2.0"), "id" := JInt(1)]
      ensures sent == []
    {
      url := Url(ipAddress, port + instanceId);
      serverIp := ipAddress;
      this.port := port;
      this.instanceId := instanceId;
      headers := map["content-type" := "application/json"];
      payload := map["jsonrpc" := JString("2.0"), "id" := JInt(1)];
      sent := [];
    }

    /** One remote call. `params == None` stands for the argument left out, which is
        handled like an explicit None (see BindsAsWritten for what Python does). The
        method name in `payload` is overwritten; `payload['params']` is overwritten
        only by truthy parameters, so earlier parameters otherwise stay. */
    method Call(methodName: string, params: Option<Json>, parse: string -> Option<Json>, chunks: seq<string>)
      returns (r: CallResult)
      requires Valid()
      modifies this`payload, this`sent
      ensures Valid()
      ensures payload ==
        if Given(params) then old(payload)["method" := JString(methodName)]["params" := params.value]
        else old(payload)["method" := JString(methodName)]
      ensures |sent| == |old(sent)| + 1 && sent[..|old(sent)|] == old(sent)
      ensures sent[|sent| - 1].host == serverIp && sent[|sent| - 1].port == port + instanceId
      ensures IsEnvelope(sent[|sent| - 1].request, methodName, params)
      ensures r == Interpret(Frame(parse, chunks, 0, ""))
    {
      payload := payload["method" := JString(methodName)];
      if Given(params) {
        payload := payload["params" := params.value];
      }
      var req := BuildRequest(methodName, params);
      sent := sent + [Exchange(serverIp, port + instanceId, req)];
      var response := ReadResponse(parse, chunks);
      r := Interpret(response);
    }
  }
}
