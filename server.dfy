/**
  * The request handler of the tokenizer service: GET routing with
  * trailing-slash normalisation, POST body reading, and the `/encode` and
  * `/decode` dispatch, each reduced to the status code and JSON object the
  * handler writes.
  */
module Server {
  import opened Wrappers
  import opened JsonValue
  import opened TokenizerAdapter

  /** What every handler shares, read-only: the adapter, the default system prompt, the model's display name. */
  datatype ServiceContext = ServiceContext(tok: TokenizerHttp, defaultSystem: string, modelDisp: string)

  /** The status code and the JSON object written back. */
  datatype Response = Response(status: int, body: Json)

  datatype Method = GET | POST

  /**
    * One request as the handler sees it. `contentLength` is the outcome of
    * `int()` on the Content-Length header (`None` when it is absent),
    * `readError` the exception reading the body raised, if any, and
    * `parsed` the outcome of decoding and parsing the bytes read.
    */
  datatype Request = Request(
    path: string,
    contentLength: Option<Result<int, string>>,
    readError: Option<string>,
    parsed: Result<Json, string>)

  function ErrorResponse(status: int, message: string): Response {
    Response(status, Object(map["error" := Str(message)]))
  }

  const NotFound: Response := ErrorResponse(404, "not found")

  // ---------------------------------------------------------------- GET

  /** `s.rstrip("/")`: the longest prefix of `s` that does not end in `/`, the rest being all slashes. */
  function RStrip(s: string): (r: string)
    ensures |r| <= |s| && r == s[..|r|]
    ensures r == [] || r[|r| - 1] != '/'
    ensures forall i :: |r| <= i < |s| ==> s[i] == '/'
    decreases |s|
  {
    if s != [] && s[|s| - 1] == '/' then RStrip(s[..|s| - 1]) else s
  }

  /** The path a GET request is routed by: trailing slashes stripped, and the empty path read as `/`. */
  function NormalizeGetPath(path: string): (p: string)
    ensures p == "/" || (p != [] && p[|p| - 1] != '/')
    ensures p == "/" <==> RStrip(path) == []
    ensures RStrip(path) != [] ==> p == RStrip(path)
  {
    var stripped := RStrip(path);
    if stripped == "" then "/" else stripped
  }

  /** The id reported for a special token: the id itself, or -1 when there is none. */
  function IdOrSentinel(id: Option<TokenId>): (v: int)
    ensures v == -1 <==> id.None?
    ensures id.Some? ==> v == id.value
  {
    if id.None? then -1 else id.value
  }

  function StatusResponse(ctx: ServiceContext): Response {
    Response(200, Object(map["status" := Str("ok"), "model" := Str(ctx.modelDisp)]))
  }

  function GetResponse(ctx: ServiceContext, path: string): Response {
    var p := NormalizeGetPath(path);
    if p == "/" then StatusResponse(ctx)
    else if p == "/bos_id" then Response(200, Object(map["bos_id" := Int(IdOrSentinel(ctx.tok.BosId()))]))
    else if p == "/eos_id" then Response(200, Object(map["eos_id" := Int(IdOrSentinel(ctx.tok.EosId()))]))
    else NotFound
  }

  method DoGet(ctx: ServiceContext, rawPath: string) returns (resp: Response)
    ensures resp == GetResponse(ctx, rawPath)
  {
    var path := RStrip(rawPath);
    if path == "" {
      path := "/";
    }
    if path == "/" {
      resp := Response(200, Object(map["status" := Str("ok"), "model" := Str(ctx.modelDisp)]));
    } else if path == "/bos_id" {
      var bid := ctx.tok.BosId();
      resp := Response(200, Object(map["bos_id" := Int(if bid.None? then -1 else bid.value)]));
    } else if path == "/eos_id" {
      var eid := ctx.tok.EosId();
      resp := Response(200, Object(map["eos_id" := Int(if eid.None? then -1 else eid.value)]));
    } else {
      resp := NotFound;
    }
  }

  // ---------------------------------------------------------------- POST

  /** `int(headers.get("Content-Length", "0"))`: an absent header reads as 0. */
  function ContentLength(header: Option<Result<int, string>>): Result<int, string> {
    if header.None? then Success(0) else header.value
  }

  /**
    * The request object: a header that is not an integer or a failed read
    * is an error; a positive length parses the body; any other length
    * gives `{}` without looking at the body.
    */
  function ReadBody(req: Request): Result<Json, string> {
    match ContentLength(req.contentLength)
    case Failure(e) => Failure(e)
    case Success(ln) =>
      if req.readError.Some? then Failure(req.readError.value)
      else if ln > 0 then req.parsed
      else Success(EmptyObject)
  }

  /** `"messages" in req and isinstance(req["messages"], list)`. */
  predicate HasMessageList(req: Json) {
    req.Object? && "messages" in req.fields && req.fields["messages"].Array?
  }

  /** What `/encode` asks of the adapter for the request object `req`, and its outcome. */
  function EncodeResult(ctx: ServiceContext, req: Json): Result<seq<TokenId>, string> {
    match Get(req, "add_generation_prompt", Bool(true))
    case Failure(e) => Failure(e)
    case Success(addGen) =>
      if HasMessageList(req) then
        Tokenize(ctx.tok.tok, req.fields["messages"].items, Truthy(addGen))
      else
        var text := Get(req, "text", Str("")).value;
        var systemContent := Get(req, "system", Str(ctx.defaultSystem)).value;
        Tokenize(ctx.tok.tok, TextMessages(text, systemContent), Truthy(addGen))
  }

  /** What `/decode` asks of the adapter for the request object `req`, and its outcome. */
  function DecodeResult(ctx: ServiceContext, req: Json): Result<string, string> {
    match Get(req, "token_ids", Array([]))
    case Failure(e) => Failure(e)
    case Success(ids) => ctx.tok.tok.decode(ids)
  }

  /** The token ids as a JSON list. */
  function IdsToJson(ids: seq<TokenId>): (items: seq<Json>)
    ensures |items| == |ids|
    ensures forall i :: 0 <= i < |ids| ==> items[i] == Int(ids[i])
  {
    seq(|ids|, i requires 0 <= i < |ids| => Int(ids[i]))
  }

  function EncodedResponse(ids: seq<TokenId>): Response {
    Response(200, Object(map["token_ids" := Array(IdsToJson(ids)), "len" := Int(|ids|)]))
  }

  function PostResponse(ctx: ServiceContext, req: Request): Response {
    match ReadBody(req)
    case Failure(e) => ErrorResponse(400, "bad json: " + e)
    case Success(body) =>
      if req.path == "/encode" then
        match EncodeResult(ctx, body)
        case Success(ids) => EncodedResponse(ids)
        case Failure(e) => ErrorResponse(500, "encode failed: " + e)
      else if req.path == "/decode" then
        match DecodeResult(ctx, body)
        case Success(text) => Response(200, Object(map["text" := Str(text)]))
        case Failure(e) => ErrorResponse(500, "decode failed: " + e)
      else NotFound
  }

  method DoPost(ctx: ServiceContext, request: Request) returns (resp: Response)
    ensures resp == PostResponse(ctx, request)
  {
    var ln := ContentLength(request.contentLength);
    if ln.Failure? {
      return ErrorResponse(400, "bad json: " + ln.error);
    }
    if request.readError.Some? {
      return ErrorResponse(400, "bad json: " + request.readError.value);
    }
    var req: Json;
    if ln.value > 0 {
      if request.parsed.Failure? {
        return ErrorResponse(400, "bad json: " + request.parsed.error);
      }
      req := request.parsed.value;
    } else {
      req := EmptyObject;
    }

    var path := request.path;
    if path == "/encode" {
      var addGen := Get(req, "add_generation_prompt", Bool(true));
      if addGen.Failure? {
        return ErrorResponse(500, "encode failed: " + addGen.error);
      }
      var ids: Result<seq<TokenId>, string>;
      if "messages" in req.fields && req.fields["messages"].Array? {
        ids := ctx.tok.EncodeFromMessages(req.fields["messages"].items, Truthy(addGen.value));
      } else {
        var text := Get(req, "text", Str("")).value;
        var systemContent := Get(req, "system", Str(ctx.defaultSystem)).value;
        ids := ctx.tok.EncodeFromText(text, systemContent, Truthy(addGen.value));
      }
      if ids.Failure? {
        return ErrorResponse(500, "encode failed: " + ids.error);
      }
      resp := Response(200, Object(map["token_ids" := Array(IdsToJson(ids.value)), "len" := Int(|ids.value|)]));
    } else if path == "/decode" {
      var ids := Get(req, "token_ids", Array([]));
      if ids.Failure? {
        return ErrorResponse(500, "decode failed: " + ids.error);
      }
      var text := ctx.tok.Decode(ids.value);
      if text.Failure? {
        return ErrorResponse(500, "decode failed: " + text.error);
      }
      resp := Response(200, Object(map["text" := Str(text.value)]));
    } else {
      resp := NotFound;
    }
  }

  // ---------------------------------------------------------------- both

  /** The response to any request: every outcome is one of four status codes with a JSON object. */
  function Handle(ctx: ServiceContext, m: Method, req: Request): (resp: Response)
    ensures resp.status in {200, 400, 404, 500}
    ensures resp.body.Object?
    ensures resp.status != 200 ==> resp.body.fields.Keys == {"error"} && resp.body.fields["error"].Str?
    ensures m == GET ==> resp.status in {200, 404}
  {
    match m
    case GET => GetResponse(ctx, req.path)
    case POST => PostResponse(ctx, req)
  }
}
