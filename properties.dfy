/** What the service promises its callers, proved of the handler's specification functions. */
module ServerProperties {
  import opened Wrappers
  import opened JsonValue
  import opened TokenizerAdapter
  import opened Server

  // ---------------------------------------------------------------- GET

  predicate AllSlashes(s: string) {
    forall i :: 0 <= i < |s| ==> s[i] == '/'
  }

  /** RStrip is determined by its contract: any prefix without a trailing slash, followed only by slashes, is it. */
  lemma RStripUnique(s: string, r: string)
    requires |r| <= |s| && r == s[..|r|]
    requires r == [] || r[|r| - 1] != '/'
    requires AllSlashes(s[|r|..])
    ensures RStrip(s) == r
  {
  }

  /** Appending slashes does not change the stripped path. */
  lemma RStripIgnoresTrailingSlashes(p: string, slashes: string)
    requires AllSlashes(slashes)
    ensures RStrip(p + slashes) == RStrip(p)
  {
    var r := RStrip(p);
    var s := p + slashes;
    assert s[..|r|] == r;
    forall i | 0 <= i < |s[|r|..]|
      ensures s[|r|..][i] == '/'
    {
      if |r| + i < |p| {
        assert s[|r| + i] == p[|r| + i];
      } else {
        assert s[|r| + i] == slashes[|r| + i - |p|];
      }
    }
    RStripUnique(s, r);
  }

  /** Normalising a GET path twice is normalising it once. */
  lemma NormalizeGetPathIdempotent(path: string)
    ensures NormalizeGetPath(NormalizeGetPath(path)) == NormalizeGetPath(path)
  {
  }

  /** Any number of trailing slashes on a GET path is ignored: `/bos_id/` is `/bos_id`. */
  lemma GetIgnoresTrailingSlashes(ctx: ServiceContext, path: string, slashes: string)
    requires AllSlashes(slashes)
    ensures GetResponse(ctx, path + slashes) == GetResponse(ctx, path)
  {
    RStripIgnoresTrailingSlashes(path, slashes);
  }

  /** A path of slashes only, the empty path included, is the status endpoint. */
  lemma SlashesAreRoot(ctx: ServiceContext, path: string)
    requires AllSlashes(path)
    ensures GetResponse(ctx, path) == Response(200, Object(map["status" := Str("ok"), "model" := Str(ctx.modelDisp)]))
  {
  }

  /**
    * GET of the BOS id endpoint answers 200 with the single integer field
    * `bos_id`, which is -1 exactly when the tokenizer has no BOS token.
    */
  lemma BosIdEndpoint(ctx: ServiceContext, path: string)
    requires NormalizeGetPath(path) == "/bos_id"
    ensures var resp := GetResponse(ctx, path);
      && resp.status == 200
      && resp.body.Object? && resp.body.fields.Keys == {"bos_id"}
      && resp.body.fields["bos_id"].Int?
      && (resp.body.fields["bos_id"].i == -1 <==> ctx.tok.tok.bosTokenId.None?)
      && (ctx.tok.tok.bosTokenId.Some? ==> resp.body.fields["bos_id"].i == ctx.tok.tok.bosTokenId.value)
  {
  }

  /** The same for the EOS id endpoint. */
  lemma EosIdEndpoint(ctx: ServiceContext, path: string)
    requires NormalizeGetPath(path) == "/eos_id"
    ensures var resp := GetResponse(ctx, path);
      && resp.status == 200
      && resp.body.Object? && resp.body.fields.Keys == {"eos_id"}
      && resp.body.fields["eos_id"].Int?
      && (resp.body.fields["eos_id"].i == -1 <==> ctx.tok.tok.eosTokenId.None?)
      && (ctx.tok.tok.eosTokenId.Some? ==> resp.body.fields["eos_id"].i == ctx.tok.tok.eosTokenId.value)
  {
  }

  /** A GET answers 404 `{"error":"not found"}` exactly when its normalised path is none of the three routes. */
  lemma GetNotFound(ctx: ServiceContext, path: string)
    ensures var p := NormalizeGetPath(path);
      GetResponse(ctx, path).status == 404 <==> p != "/" && p != "/bos_id" && p != "/eos_id"
    ensures GetResponse(ctx, path).status == 404 ==> GetResponse(ctx, path) == NotFound
  {
  }

  // ---------------------------------------------------------------- POST body

  /** An absent or non-positive Content-Length makes the request `{}`, whatever the body, once the read returns. */
  lemma NoLengthMeansEmptyObject(req: Request)
    requires req.contentLength.None? || (req.contentLength.value.Success? && req.contentLength.value.value <= 0)
    requires req.readError.None?
    ensures ReadBody(req) == Success(EmptyObject)
  {
  }

  /**
    * A POST answers 400 exactly when the header is not an integer, the read
    * fails, or a positive-length body does not parse; the error names the
    * cause after `bad json: `, and the path plays no part.
    */
  lemma BadJson(ctx: ServiceContext, req: Request, otherPath: string)
    ensures PostResponse(ctx, req).status == 400 <==>
      || (req.contentLength.Some? && req.contentLength.value.Failure?)
      || req.readError.Some?
      || (ContentLength(req.contentLength).Success? && ContentLength(req.contentLength).value > 0 && req.parsed.Failure?)
    ensures ReadBody(req).Failure? ==>
      && PostResponse(ctx, req) == ErrorResponse(400, "bad json: " + ReadBody(req).error)
      && PostResponse(ctx, req.(path := otherPath)) == PostResponse(ctx, req)
  {
  }

  /** Once the body is read, a POST answers 404 exactly when the path is neither `/encode` nor `/decode`, unnormalised. */
  lemma PostNotFound(ctx: ServiceContext, req: Request)
    requires ReadBody(req).Success?
    ensures PostResponse(ctx, req).status == 404 <==> req.path != "/encode" && req.path != "/decode"
    ensures PostResponse(ctx, req).status == 404 ==> PostResponse(ctx, req) == NotFound
  {
  }

  /** POST paths are not slash-stripped: `/encode/` is not found. */
  lemma PostTrailingSlashNotFound(ctx: ServiceContext, req: Request)
    requires ReadBody(req).Success?
    requires req.path == "/encode/" || req.path == "/decode/"
    ensures PostResponse(ctx, req) == NotFound
  {
  }

  // ---------------------------------------------------------------- /encode policy

  /** `add_generation_prompt` as the handler reads it: its truth value, true when absent. */
  function AddGenerationPrompt(fields: map<string, Json>): bool {
    if "add_generation_prompt" in fields then Truthy(fields["add_generation_prompt"]) else true
  }

  /** A `messages` list is encoded as given, whatever `text` and `system` say. */
  lemma MessagesTakePrecedence(ctx: ServiceContext, fields: map<string, Json>, text: Json, systemContent: Json)
    requires "messages" in fields && fields["messages"].Array?
    ensures EncodeResult(ctx, Object(fields)) ==
      Tokenize(ctx.tok.tok, fields["messages"].items, AddGenerationPrompt(fields))
    ensures EncodeResult(ctx, Object(fields["text" := text]["system" := systemContent])) ==
      EncodeResult(ctx, Object(fields))
  {
  }

  /**
    * Without a `messages` list, `text` (default `""`) is the user turn and
    * `system` is the system turn, the default prompt standing in only when
    * the key is absent.
    */
  lemma TextInputPolicy(ctx: ServiceContext, fields: map<string, Json>)
    requires !("messages" in fields && fields["messages"].Array?)
    ensures var text := if "text" in fields then fields["text"] else Str("");
      var systemContent := if "system" in fields then fields["system"] else Str(ctx.defaultSystem);
      EncodeResult(ctx, Object(fields)) ==
        Tokenize(ctx.tok.tok, TextMessages(text, systemContent), AddGenerationPrompt(fields))
  {
  }

  /** An explicit empty `system` means no system turn at all, even when a default prompt is configured. */
  lemma ExplicitEmptySystemOmitsSystemTurn(ctx: ServiceContext, fields: map<string, Json>)
    requires !("messages" in fields && fields["messages"].Array?)
    requires "system" in fields && fields["system"] == Str("")
    ensures var text := if "text" in fields then fields["text"] else Str("");
      EncodeResult(ctx, Object(fields)) ==
        Tokenize(ctx.tok.tok, [Message("user", text)], AddGenerationPrompt(fields))
  {
    TextInputPolicy(ctx, fields);
    var text := if "text" in fields then fields["text"] else Str("");
    assert TextMessages(text, Str("")) == [Message("user", text)];
  }

  /** With no `system` key, a non-empty default prompt becomes the system turn. */
  lemma AbsentSystemUsesDefault(ctx: ServiceContext, fields: map<string, Json>)
    requires !("messages" in fields && fields["messages"].Array?)
    requires "system" !in fields && ctx.defaultSystem != ""
    ensures var text := if "text" in fields then fields["text"] else Str("");
      EncodeResult(ctx, Object(fields)) ==
        Tokenize(ctx.tok.tok, [Message("system", Str(ctx.defaultSystem)), Message("user", text)], AddGenerationPrompt(fields))
  {
    TextInputPolicy(ctx, fields);
    var text := if "text" in fields then fields["text"] else Str("");
    var systemContent := Str(ctx.defaultSystem);
    assert TextMessages(text, systemContent) == [Message("system", systemContent), Message("user", text)];
  }

  /** A request object that is not a dict fails `/encode` with Python's AttributeError text. */
  lemma EncodeNeedsObject(ctx: ServiceContext, req: Json)
    requires !req.Object?
    ensures EncodeResult(ctx, req) == Failure("'" + TypeName(req) + "' object has no attribute 'get'")
  {
  }

  /**
    * An empty POST to `/encode` (no Content-Length, or one of 0 or less)
    * encodes `""` as the user turn after the default system prompt, with
    * the generation prompt.
    */
  lemma EmptyEncodeRequest(ctx: ServiceContext, req: Request)
    requires req.path == "/encode" && req.readError.None?
    requires req.contentLength.None? || (req.contentLength.value.Success? && req.contentLength.value.value <= 0)
    ensures var ids := Tokenize(ctx.tok.tok, TextMessages(Str(""), Str(ctx.defaultSystem)), true);
      PostResponse(ctx, req) ==
        if ids.Success? then EncodedResponse(ids.value) else ErrorResponse(500, "encode failed: " + ids.error)
  {
  }

  // ---------------------------------------------------------------- outcomes

  /**
    * A read `/encode` answers 200 exactly when the adapter succeeds, with
    * the ids and `len` equal to their count, and 500 `encode failed: ...`
    * otherwise.
    */
  lemma EncodeOutcome(ctx: ServiceContext, req: Request)
    requires req.path == "/encode" && ReadBody(req).Success?
    ensures var result := EncodeResult(ctx, ReadBody(req).value);
      var resp := PostResponse(ctx, req);
      && (resp.status == 200 <==> result.Success?)
      && (result.Success? ==>
            && resp.body.fields["token_ids"] == Array(IdsToJson(result.value))
            && resp.body.fields["len"] == Int(|resp.body.fields["token_ids"].items|))
      && (result.Failure? ==> resp == ErrorResponse(500, "encode failed: " + result.error))
  {
  }

  /**
    * A read `/decode` answers 200 `{"text": ...}` exactly when the adapter
    * succeeds and 500 `decode failed: ...` otherwise; for an object body the
    * adapter decodes `token_ids`, default `[]`.
    */
  lemma DecodeOutcome(ctx: ServiceContext, req: Request)
    requires req.path == "/decode" && ReadBody(req).Success?
    ensures var body := ReadBody(req).value;
      var result := DecodeResult(ctx, body);
      var resp := PostResponse(ctx, req);
      && (resp.status == 200 <==> result.Success?)
      && (result.Success? ==> resp == Response(200, Object(map["text" := Str(result.value)])))
      && (result.Failure? ==> resp == ErrorResponse(500, "decode failed: " + result.error))
      && (body.Object? ==>
            result == ctx.tok.tok.decode(if "token_ids" in body.fields then body.fields["token_ids"] else Array([])))
  {
  }

  /** A request object that is not a dict fails `/decode` with Python's AttributeError text. */
  lemma DecodeNeedsObject(ctx: ServiceContext, req: Json)
    requires !req.Object?
    ensures DecodeResult(ctx, req) == Failure("'" + TypeName(req) + "' object has no attribute 'get'")
  {
  }

  /** An empty POST to `/decode` (no Content-Length, or one of 0 or less) decodes the empty list. */
  lemma EmptyDecodeRequest(ctx: ServiceContext, req: Request)
    requires req.path == "/decode" && req.readError.None?
    requires req.contentLength.None? || (req.contentLength.value.Success? && req.contentLength.value.value <= 0)
    ensures var text := ctx.tok.tok.decode(Array([]));
      PostResponse(ctx, req) ==
        if text.Success? then Response(200, Object(map["text" := Str(text.value)]))
        else ErrorResponse(500, "decode failed: " + text.error)
  {
  }
}
