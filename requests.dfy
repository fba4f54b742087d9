/** What the caller script sends: the weighted catalogue of items, the choice
    of an item and of a transport, the method a kind of item maps to, and
    the JSON-RPC request envelope. */
module Requests {
  import opened Common
  import opened Json
  import opened Interval

  /** Every way a single call (or the start-up handshake) can fail. */
  datatype Failure =
    | UnknownType(kind: string)      // getMethodForType on an unknown kind
    | HttpStatus(status: int)        // a reply whose status is not 2xx
    | UndecodableBody                // JSON.parse threw
    | SendFailed                     // the POST to /messages failed
    | SseTimeout                     // no SSE response within 45 s
    | ConnectFailed                  // new EventSource(...) threw
    | InitializeFailed(error: Json)  // the initialize reply carried an error
    | NullReply                      // the initialize reply was `null`: reading `.error` threw

  /** An `McpItem`: `args` is None when the item has no `args` property. */
  datatype Item = Item(kind: string, name: string, args: Option<map<string, Json>>)

  function Tool(name: string, args: map<string, Json>): Item { Item("tool", name, Some(args)) }
  function Resource(name: string): Item { Item("resource", name, Some(map[])) }
  function Prompt(name: string): Item { Item("prompt", name, Some(map[])) }

  /** `availableItems`, in its three groups: duplicates make an entry more
      likely to be drawn. */
  function Catalogue(): (c: seq<Item>)
    ensures |c| == 18
    ensures forall i :: 0 <= i < |c| ==> c[i].args.Some? && c[i].name != ""
  {
    CatalogueTools() + CatalogueResources() + CataloguePrompts()
  }

  function CatalogueTools(): seq<Item>
  {
    var checkoutArgs := map["items" := JArr([JObj(map["productId" := JNum(3.0), "quantity" := JNum(1.0)])])];
    [ Tool("get-products", map[]), Tool("get-products", map[]),
      Tool("get-products", map[]), Tool("get-products", map[]),
      Tool("get-plant-care-guide", map["plantName" := JStr("pothos")]),
      Tool("get-plant-care-guide", map["plantName" := JStr("fiddle fig")]),
      Tool("checkout", checkoutArgs), Tool("checkout", checkoutArgs) ]
  }

  function CatalogueResources(): seq<Item>
  {
    [ Resource("seasonal-calendar"),
      Resource("plant-diagnostics"), Resource("plant-diagnostics"),
      Resource("plant-symptoms"), Resource("plant-symptoms"), Resource("plant-symptoms") ]
  }

  function CataloguePrompts(): seq<Item>
  {
    [ Prompt("seasonal-care-guide"),
      Prompt("plant-shopping-assistant"), Prompt("plant-shopping-assistant"),
      Prompt("new-plant-parent") ]
  }

  /** The number of catalogue entries of one kind: its weight. */
  function CountKind(items: seq<Item>, kind: string): (n: nat)
    ensures n <= |items|
  {
    if items == [] then 0
    else (if items[0].kind == kind then 1 else 0) + CountKind(items[1..], kind)
  }

  lemma {:induction false} CountKindAppend(a: seq<Item>, b: seq<Item>, kind: string)
    ensures CountKind(a + b, kind) == CountKind(a, kind) + CountKind(b, kind)
  {
    if a != [] {
      assert (a + b)[1..] == a[1..] + b;
      CountKindAppend(a[1..], b, kind);
    } else {
      assert a + b == b;
    }
  }

  /** A group whose entries all have one kind counts all of them for that
      kind, and none for a kind they do not have. */
  lemma {:induction false} CountUniform(items: seq<Item>, kind: string, other: string)
    requires forall i :: 0 <= i < |items| ==> items[i].kind == kind
    requires other != kind
    ensures CountKind(items, kind) == |items| && CountKind(items, other) == 0
  {
    if items != [] {
      CountUniform(items[1..], kind, other);
    }
  }

  lemma GroupKinds()
    ensures forall i :: 0 <= i < |CatalogueTools()| ==> CatalogueTools()[i].kind == "tool"
    ensures forall i :: 0 <= i < |CatalogueResources()| ==> CatalogueResources()[i].kind == "resource"
    ensures forall i :: 0 <= i < |CataloguePrompts()| ==> CataloguePrompts()[i].kind == "prompt"
  {
  }

  /** Counting over the catalogue is counting over its three groups. */
  lemma {:induction false} CatalogueCount(kind: string)
    ensures CountKind(Catalogue(), kind) ==
            CountKind(CatalogueTools(), kind) + CountKind(CatalogueResources(), kind) + CountKind(CataloguePrompts(), kind)
  {
    var t, r, p := CatalogueTools(), CatalogueResources(), CataloguePrompts();
    CountKindAppend(t + r, p, kind);
    CountKindAppend(t, r, kind);
  }

  /** An entry of the catalogue is an entry of one of its groups. */
  lemma CatalogueEntry(i: nat)
    requires i < |CatalogueTools()| + |CatalogueResources()| + |CataloguePrompts()|
    ensures var t, r, p := CatalogueTools(), CatalogueResources(), CataloguePrompts();
            && (i < |t| ==> Catalogue()[i] == t[i])
            && (|t| <= i < |t| + |r| ==> Catalogue()[i] == r[i - |t|])
            && (|t| + |r| <= i ==> Catalogue()[i] == p[i - |t| - |r|])
  {
  }

  /** The catalogue has 18 entries: 8 tools, 6 resources and 4 prompts, and
      nothing of any other kind. */
  lemma CatalogueWeights()
    ensures |Catalogue()| == 18
    ensures CountKind(Catalogue(), "tool") == 8
    ensures CountKind(Catalogue(), "resource") == 6
    ensures CountKind(Catalogue(), "prompt") == 4
    ensures forall i :: 0 <= i < |Catalogue()| ==> IsKnownKind(Catalogue()[i].kind)
  {
    var t, r, p := CatalogueTools(), CatalogueResources(), CataloguePrompts();
    assert |t| == 8 && |r| == 6 && |p| == 4;
    GroupKinds();
    CountUniform(t, "tool", "resource");
    CountUniform(t, "tool", "prompt");
    CountUniform(r, "resource", "tool");
    CountUniform(r, "resource", "prompt");
    CountUniform(p, "prompt", "tool");
    CountUniform(p, "prompt", "resource");
    CatalogueCount("tool");
    CatalogueCount("resource");
    CatalogueCount("prompt");
    forall i | 0 <= i < |Catalogue()| ensures IsKnownKind(Catalogue()[i].kind) {
      CatalogueEntry(i);
    }
  }

  /** A draw in [0, 1) scales a positive length into [0, n). */
  lemma UnitScale(r: Unit, n: real)
    requires n > 0.0
    ensures 0.0 <= r * n < n
  {
    var k := 1.0 - r;
    assert k > 0.0;
    assert k * n > 0.0;
    assert n - r * n == k * n;
  }

  /** `Math.floor(r * len)`: the index `getRandomItem` draws. */
  function RandomIndex(len: nat, r: Unit): (i: nat)
    requires len > 0
    ensures i < len
    ensures i as real <= r * len as real < i as real + 1.0
  {
    var x := r * len as real;
    UnitScale(r, len as real);
    x.Floor
  }

  /** Every index can be drawn: `r = i / len` draws `i`. */
  lemma RandomIndexCovers(len: nat, i: nat)
    requires i < len
    ensures var r := i as real / len as real;
            0.0 <= r < 1.0 && RandomIndex(len, r) == i
  {
    var r := i as real / len as real;
    assert r * len as real == i as real;
    assert r < 1.0 by {
      assert i as real < len as real;
    }
  }

  /** `getRandomItem()` with `Math.random()` = r. */
  function RandomItem(r: Unit): (item: Item)
    ensures item in Catalogue()
    ensures IsKnownKind(item.kind)
  {
    CatalogueWeights();
    Catalogue()[RandomIndex(|Catalogue()|, r)]
  }

  /** `shouldUseSSE()`: `Math.random() * 100 < sseUsagePercent`. */
  predicate ShouldUseSse(r: Unit, sseUsagePercent: real)
    ensures ShouldUseSse(r, sseUsagePercent) <==> r < sseUsagePercent / 100.0
  {
    r * 100.0 < sseUsagePercent
  }

  /** A usage of 0 % never picks SSE, one of 100 % always does, and a draw
      picks SSE exactly when it falls below the usage fraction. */
  lemma ShouldUseSseBounds(r: Unit, sseUsagePercent: real)
    ensures sseUsagePercent <= 0.0 ==> !ShouldUseSse(r, sseUsagePercent)
    ensures sseUsagePercent >= 100.0 ==> ShouldUseSse(r, sseUsagePercent)
    ensures ShouldUseSse(r, sseUsagePercent) <==> r < sseUsagePercent / 100.0
  {
  }

  predicate IsKnownKind(kind: string)
  {
    kind == "tool" || kind == "resource" || kind == "prompt"
  }

  /** `getMethodForType(type)`: the three kinds map to their MCP methods;
      anything else is an error naming the kind. */
  function MethodForType(kind: string): (r: Result<string, Failure>)
    ensures r.Ok? <==> IsKnownKind(kind)
    ensures r.Err? ==> r.error == UnknownType(kind)
    ensures kind == "tool" ==> r == Ok("tools/call")
    ensures kind == "resource" ==> r == Ok("resources/read")
    ensures kind == "prompt" ==> r == Ok("prompts/get")
  {
    match kind
    case "tool" => Ok("tools/call")
    case "resource" => Ok("resources/read")
    case "prompt" => Ok("prompts/get")
    case _ => Err(UnknownType(kind))
  }

  /** The kind a method name comes from, the inverse of `MethodForType`. */
  function TypeForMethod(rpcMethod: string): Option<string>
  {
    if rpcMethod == "tools/call" then Some("tool")
    else if rpcMethod == "resources/read" then Some("resource")
    else if rpcMethod == "prompts/get" then Some("prompt")
    else None
  }

  /** The mapping is one-to-one: a method name determines its kind. */
  lemma MethodForTypeInverse(kind: string, rpcMethod: string)
    ensures MethodForType(kind) == Ok(rpcMethod) <==> TypeForMethod(rpcMethod) == Some(kind)
  {
  }

  const ResourceScheme := "empower://"

  /** `params` of a call: `{uri, name}` for a resource, `{name, arguments}`
      (with `args || {}`) for anything else. */
  function ParamsFor(item: Item): (p: Json)
    ensures p.JObj?
    ensures Field(p, "name") == Some(JStr(item.name))
    ensures item.kind == "resource" ==>
              p.fields.Keys == {"uri", "name"} && p.fields["uri"] == JStr(ResourceScheme + item.name)
    ensures item.kind != "resource" ==>
              p.fields.Keys == {"name", "arguments"} &&
              p.fields["arguments"] == JObj(if item.args.Some? then item.args.value else map[])
  {
    if item.kind == "resource" then
      JObj(map["uri" := JStr(ResourceScheme + item.name), "name" := JStr(item.name)])
    else
      JObj(map["name" := JStr(item.name),
               "arguments" := JObj(if item.args.Some? then item.args.value else map[])])
  }

  /** The resource name a `empower://` URI stands for. */
  function NameFromUri(uri: string): Option<string>
  {
    if StartsWith(uri, ResourceScheme) then Some(uri[|ResourceScheme|..]) else None
  }

  /** A resource request's `uri` names the resource it reads. */
  lemma ResourceUriRoundTrip(item: Item)
    requires item.kind == "resource"
    ensures var p := ParamsFor(item);
            p.fields["uri"].JStr? && NameFromUri(p.fields["uri"].s) == Some(item.name)
  {
    var u := ResourceScheme + item.name;
    assert u[..|ResourceScheme|] == ResourceScheme;
    assert u[|ResourceScheme|..] == item.name;
  }

  /** An `McpRequest`; `jsonrpc` is always "2.0". */
  datatype Request = Request(id: int, rpcMethod: string, params: Json)

  const JsonRpcVersion := "2.0"

  /** The JSON body that `JSON.stringify(request)` serialises. */
  function RequestJson(req: Request): (v: Json)
    ensures FieldTruthy(v, "jsonrpc")
    ensures Field(v, "id") == Some(JNum(req.id as real))
    ensures Field(v, "method") == Some(JStr(req.rpcMethod))
  {
    JObj(map["jsonrpc" := JStr(JsonRpcVersion), "id" := JNum(req.id as real),
             "method" := JStr(req.rpcMethod), "params" := req.params])
  }

  /** `params` of the start-up `initialize` request. */
  function InitializeParams(): (v: Json)
    ensures v.JObj? && v.fields.Keys == {"protocolVersion", "capabilities", "clientInfo"}
    ensures Field(v, "protocolVersion") == Some(JStr("2024-11-05"))
    ensures Field(v, "capabilities") == Some(JObj(map[]))
    ensures var info := v.fields["clientInfo"];
            Field(info, "name") == Some(JStr("caller-script-client")) &&
            Field(info, "version") == Some(JStr("1.0.0"))
  {
    JObj(map[
      "protocolVersion" := JStr("2024-11-05"),
      "capabilities" := JObj(map[]),
      "clientInfo" := JObj(map["name" := JStr("caller-script-client"), "version" := JStr("1.0.0")])])
  }

  /** The test an SSE message must pass to answer the request with id `id`:
      `data.jsonrpc && data.id === request.id`. */
  predicate IsResponseTo(v: Json, id: int)
    ensures IsResponseTo(v, id) ==> v.JObj? && "jsonrpc" in v.fields && Truthy(v.fields["jsonrpc"])
    ensures IsResponseTo(v, id) ==> "id" in v.fields && v.fields["id"] == JNum(id as real)
  {
    FieldTruthy(v, "jsonrpc") && Field(v, "id") == Some(JNum(id as real))
  }

  /** A message answers a request exactly when its `jsonrpc` is truthy and
      its `id` is the `id` the request was serialised with. */
  lemma AnswersSerialisedRequest(v: Json, req: Request)
    ensures IsResponseTo(v, req.id) <==>
              FieldTruthy(v, "jsonrpc") && Field(v, "id") == Field(RequestJson(req), "id")
  {
  }

  /** The result of `testConnection`: a `null` reply fails the handshake
      (reading `response.error` of null throws), so does a reply whose
      `error` property is truthy; any other reply connects. */
  function CheckInitializeReply(reply: Json): (r: Result<Json, Failure>)
    ensures r.Ok? <==> !reply.JNull? && !FieldTruthy(reply, "error")
    ensures r.Ok? ==> r.value == reply
    ensures reply.JNull? ==> r == Err(NullReply)
    ensures FieldTruthy(reply, "error") ==> r == Err(InitializeFailed(reply.fields["error"]))
  {
    if reply.JNull? then Err(NullReply)
    else if FieldTruthy(reply, "error") then Err(InitializeFailed(reply.fields["error"]))
    else Ok(reply)
  }
}
