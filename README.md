# TinySwallow HTTP tokenizer: a Dafny model of its request handling

The service exposes a HuggingFace tokenizer over HTTP for an edge device:
`GET /`, `GET /bos_id` and `GET /eos_id` report status and the special token ids,
`POST /encode` renders a conversation through the chat template and tokenizes it,
and `POST /decode` turns token ids back into text. This project models the
decision layer of `work/opt/m5stack/scripts/tokenizer_tinyswallow-1.5b-ax630c.py`:
the `TokenizerHttp` adapter and the `do_GET` / `do_POST` routing and dispatch,
with `_write_json` reduced to returning a status code and a JSON object.

Layout:

- `wrappers.dfy` (`Wrappers`): `Option` (Python's `None`) and `Result` (a value or the text of a raised exception).
- `json.dfy` (`JsonValue`): the parsed JSON value a request body becomes, Python truthiness (`bool(x)`, `if x:`) and `dict.get`, which raises `AttributeError` on anything but a dict.
- `tokenizer.dfy` (`TokenizerAdapter`): the loaded tokenizer is an opaque value. Its chat template, `encode` and `decode` are function-valued fields, and each of these calls may fail. Its BOS and EOS ids are two nullable ids. The class `TokenizerHttp` holds it in its `tok` field. `EncodeFromText` builds the message list step by step as the source does. The two encode methods are proved equal to the specification functions `TextMessages` and `Tokenize`. `Decode`, `BosId` and `EosId` pass the tokenizer's answer through unchanged.
- `server.dfy` (`Server`): `GetResponse`, `ReadBody`, `EncodeResult`, `DecodeResult` and `PostResponse` specify the handler as total functions. `DoGet` and `DoPost` are the handler's two methods, proved equal to them. The handler's methods have no `modifies` clause, so no request can alter the shared context (tokenizer, default system prompt, model name).
- `properties.dfy` (`ServerProperties`): lemmas about routing, path normalisation, the body rule, the `/encode` input policy and the status-code mapping.

Every property holds for every chat template, encoder and decoder. The
tokenizer is assumed to do three things. Its token ids are non-negative,
since they are vocabulary indices; the -1 sentinel's "exactly when there is
no such token" rests on this. Reading its BOS and EOS ids never raises. It
sees each message as a key-to-value mapping without key order. The last two
are listed under "Left out".

### Behaviour of the code worth knowing

- Content-Length: the code tests `ln > 0`, so an absent header, a length of 0 and a negative length all mean `{}`, provided reading the body returns. The code still calls `rfile.read(ln)` for every length. That read's outcome is an input of the model, and a failed read gives 400 `bad json: ...` whatever the length.
- `add_generation_prompt`: the module docstring (line 10) calls it a `bool`. The code takes `bool(...)` of whatever JSON value is sent, so `0`, `null`, `""`, `[]` and `{}` mean false, and the string `"false"` means true.
- `system`: the code omits the system turn whenever the value is falsy (`""`, `null`, `0`, `[]`, `{}`). The default prompt is used only when the key is absent.
- A body that parses to something other than an object (a list, a string, `null`, a number) makes the code's `req.get` raise `AttributeError` inside the `/encode` and `/decode` try blocks. The model answers 500 `encode failed: 'list' object has no attribute 'get'`, or `decode failed: ...` on `/decode`, and the same for the other types. On any other path the answer is 404.
- `text`, `system`, the `messages` items and `token_ids` are passed to the tokenizer as whatever JSON values were sent, since the code checks no types. So the tokenizer's `decode` takes a JSON value.
- POST checks the body before the path, so a malformed body on an unknown path gives 400, not 404.

## Model

| member | source | states |
|---|---|---|
| `JsonValue.Get` | work/opt/m5stack/scripts/tokenizer_tinyswallow-1.5b-ax630c.py:101 | `req.get(key, default)` succeeds exactly on a dict. It yields the key's value, or the default when the key is absent. On any other JSON value it fails with Python's `'<type>' object has no attribute 'get'` |
| `TokenizerAdapter.TextMessages` | work/opt/m5stack/scripts/tokenizer_tinyswallow-1.5b-ax630c.py:33-38 | The conversation has two messages when the system content is truthy and one otherwise. The last is always `{"role":"user","content":text}`. With a system turn, the first is `{"role":"system","content":system_content}` |
| `TokenizerAdapter.TokenizerHttp.constructor` | work/opt/m5stack/scripts/tokenizer_tinyswallow-1.5b-ax630c.py:30-31 | The adapter holds the loaded tokenizer |
| `TokenizerAdapter.TokenizerHttp.EncodeFromText` | work/opt/m5stack/scripts/tokenizer_tinyswallow-1.5b-ax630c.py:33-42 | The list built step by step with `append` is `TextMessages`. The result is `encode(apply_chat_template(msgs, add_generation_prompt))`, and a failure of either call propagates |
| `TokenizerAdapter.TokenizerHttp.EncodeFromMessages` | work/opt/m5stack/scripts/tokenizer_tinyswallow-1.5b-ax630c.py:44-48 | The caller's list reaches the chat template unchanged. The result is the same template-then-encode composition |
| `TokenizerAdapter.TokenizerHttp.Decode` | work/opt/m5stack/scripts/tokenizer_tinyswallow-1.5b-ax630c.py:50-51 | Decoding is the tokenizer's decode of exactly what the caller sent |
| `TokenizerAdapter.TokenizerHttp.BosId` | work/opt/m5stack/scripts/tokenizer_tinyswallow-1.5b-ax630c.py:53-55 | Exposes the tokenizer's nullable BOS id unchanged |
| `TokenizerAdapter.TokenizerHttp.EosId` | work/opt/m5stack/scripts/tokenizer_tinyswallow-1.5b-ax630c.py:57-59 | Exposes the tokenizer's nullable EOS id unchanged |
| `Server.RStrip` | work/opt/m5stack/scripts/tokenizer_tinyswallow-1.5b-ax630c.py:74 | `rstrip("/")` returns a prefix of the path that does not end in `/`, and everything it removes is `/` |
| `Server.NormalizeGetPath` | work/opt/m5stack/scripts/tokenizer_tinyswallow-1.5b-ax630c.py:74-77 | The routed path is `/` or ends in something other than `/`. It is `/` exactly when stripping leaves nothing, and otherwise it is the stripped path itself |
| `Server.IdOrSentinel` | work/opt/m5stack/scripts/tokenizer_tinyswallow-1.5b-ax630c.py:82 | The reported id is -1 if and only if the tokenizer has no such token, and otherwise the id itself |
| `Server.DoGet` | work/opt/m5stack/scripts/tokenizer_tinyswallow-1.5b-ax630c.py:73-87 | The handler, reassigning its local `path`, answers exactly `GetResponse` |
| `Server.IdsToJson` | work/opt/m5stack/scripts/tokenizer_tinyswallow-1.5b-ax630c.py:109 | The `token_ids` list has one integer per token id, in order |
| `Server.DoPost` | work/opt/m5stack/scripts/tokenizer_tinyswallow-1.5b-ax630c.py:89-122 | The handler answers exactly `PostResponse`. It reads the body, matches the path and calls the adapter's methods |
| `Server.Handle` | work/opt/m5stack/scripts/tokenizer_tinyswallow-1.5b-ax630c.py:73-122 | Every request gets a response: status 200, 400, 404 or 500 with a JSON object. Every non-200 body is exactly one string field `error`. GET only ever answers 200 or 404 |
| `ServerProperties.RStripUnique` | work/opt/m5stack/scripts/tokenizer_tinyswallow-1.5b-ax630c.py:74 | Any prefix without a trailing `/`, followed by slashes only, is the stripped path: the contract of `RStrip` determines it |
| `ServerProperties.RStripIgnoresTrailingSlashes` | work/opt/m5stack/scripts/tokenizer_tinyswallow-1.5b-ax630c.py:74 | Appending any number of `/` does not change the stripped path |
| `ServerProperties.NormalizeGetPathIdempotent` | work/opt/m5stack/scripts/tokenizer_tinyswallow-1.5b-ax630c.py:74-77 | Normalising a GET path twice is normalising it once |
| `ServerProperties.GetIgnoresTrailingSlashes` | work/opt/m5stack/scripts/tokenizer_tinyswallow-1.5b-ax630c.py:74-87 | A GET path with trailing slashes gets the same response as without them, so `/bos_id/` is `/bos_id` |
| `ServerProperties.SlashesAreRoot` | work/opt/m5stack/scripts/tokenizer_tinyswallow-1.5b-ax630c.py:74-79 | `""`, `/` and `///` (any path of slashes only) answer 200 `{"status":"ok","model":model_disp}` |
| `ServerProperties.BosIdEndpoint` | work/opt/m5stack/scripts/tokenizer_tinyswallow-1.5b-ax630c.py:80-82 | GET `/bos_id` answers 200 with the single integer field `bos_id`. It is -1 exactly when the BOS id is None, and otherwise the id |
| `ServerProperties.EosIdEndpoint` | work/opt/m5stack/scripts/tokenizer_tinyswallow-1.5b-ax630c.py:83-85 | GET `/eos_id` answers the same way for the EOS id |
| `ServerProperties.GetNotFound` | work/opt/m5stack/scripts/tokenizer_tinyswallow-1.5b-ax630c.py:78-87 | A GET answers 404 `{"error":"not found"}` exactly when its normalised path is none of `/`, `/bos_id`, `/eos_id` |
| `ServerProperties.NoLengthMeansEmptyObject` | work/opt/m5stack/scripts/tokenizer_tinyswallow-1.5b-ax630c.py:91-93 | An absent or non-positive Content-Length makes the request `{}` whatever the body holds, provided the read returns |
| `ServerProperties.BadJson` | work/opt/m5stack/scripts/tokenizer_tinyswallow-1.5b-ax630c.py:90-95 | A POST answers 400 exactly when the header is not an integer, the read fails, or a positive-length body does not parse. The error is `bad json: ` plus the cause, and the response does not depend on the path, so nothing is dispatched |
| `ServerProperties.PostNotFound` | work/opt/m5stack/scripts/tokenizer_tinyswallow-1.5b-ax630c.py:97-122 | Once the body is read, a POST answers 404 `{"error":"not found"}` exactly when the path is neither `/encode` nor `/decode` |
| `ServerProperties.PostTrailingSlashNotFound` | work/opt/m5stack/scripts/tokenizer_tinyswallow-1.5b-ax630c.py:97-99 | POST paths are matched exactly, so `/encode/` and `/decode/` are not found |
| `ServerProperties.MessagesTakePrecedence` | work/opt/m5stack/scripts/tokenizer_tinyswallow-1.5b-ax630c.py:101-103 | When `messages` is a list, it is encoded as given with `add_generation_prompt` (default true), and changing `text` or `system` does not change the outcome |
| `ServerProperties.TextInputPolicy` | work/opt/m5stack/scripts/tokenizer_tinyswallow-1.5b-ax630c.py:104-108 | Otherwise `text` (default `""`) is the user turn and `system` is the system turn. The default prompt is used only when the key is absent |
| `ServerProperties.ExplicitEmptySystemOmitsSystemTurn` | work/opt/m5stack/scripts/tokenizer_tinyswallow-1.5b-ax630c.py:105-108 | An explicit `"system": ""` encodes the user turn alone, even when a default prompt is configured |
| `ServerProperties.AbsentSystemUsesDefault` | work/opt/m5stack/scripts/tokenizer_tinyswallow-1.5b-ax630c.py:106-108 | With no `system` key, a non-empty default prompt becomes the system turn before the user turn |
| `ServerProperties.EncodeNeedsObject` | work/opt/m5stack/scripts/tokenizer_tinyswallow-1.5b-ax630c.py:100-101 | A request body that is not a JSON object fails `/encode` with Python's AttributeError text |
| `ServerProperties.EmptyEncodeRequest` | work/opt/m5stack/scripts/tokenizer_tinyswallow-1.5b-ax630c.py:91-111 | An empty POST to `/encode` (no Content-Length, or one of 0 or less, with a read that returns) encodes `""` after the default system prompt, with the generation prompt |
| `ServerProperties.EncodeOutcome` | work/opt/m5stack/scripts/tokenizer_tinyswallow-1.5b-ax630c.py:109-111 | A read `/encode` answers 200 exactly when the adapter succeeds, with `len` equal to the length of `token_ids`. Otherwise it answers 500 `encode failed: ` plus the cause |
| `ServerProperties.DecodeOutcome` | work/opt/m5stack/scripts/tokenizer_tinyswallow-1.5b-ax630c.py:113-119 | Every read `/decode` answers 200 `{"text": ...}` exactly when the adapter step succeeds, and 500 `decode failed: ` plus the cause otherwise. For an object body the adapter decodes `token_ids` (default `[]`) |
| `ServerProperties.DecodeNeedsObject` | work/opt/m5stack/scripts/tokenizer_tinyswallow-1.5b-ax630c.py:113-119 | A request body that is not a JSON object fails `/decode` with Python's AttributeError text |
| `ServerProperties.EmptyDecodeRequest` | work/opt/m5stack/scripts/tokenizer_tinyswallow-1.5b-ax630c.py:113-117 | An empty POST to `/decode` (no Content-Length, or one of 0 or less, with a read that returns) decodes the empty list |

## Left out

- HTTP and socket plumbing: `BaseHTTPRequestHandler`, `send_response`, `send_header`, `wfile.write`, the 5-second read timeout and Content-Length framing. The outcomes of `int()` on the header, of `rfile.read` and of decoding and parsing the body are inputs of a request.
- JSON serialisation (`json.dumps` with `ensure_ascii=False`, UTF-8 encoding) and parsing (`json.loads`). A response is the JSON value before serialisation; key order is not modelled.
- A failure while writing the 200 response inside the `/encode` and `/decode` try blocks (a broken connection), which would lead to a second write with status 500. This is I/O.
- Non-finite JSON numbers (`NaN`, `Infinity`), which Python's parser accepts; numbers are integers or finite reals.
- Tokenizer internals (`AutoTokenizer.from_pretrained`, the chat template engine, BPE, the vocabulary). They are opaque function-valued fields. Token ids are vocabulary indices, so they are non-negative.
- Key order of chat messages: a message is a map, so the template cannot see in which order `role` and `content` were inserted. A Python dict keeps insertion order, and a template that iterates a message's items could depend on it.
- Exceptions from the BOS and EOS lookups: the ids are plain values, so the model assumes `bos_token_id` and `eos_token_id` never raise. `do_GET` reads them outside any `try`, so an exception there would escape the handler and the base class would answer it, not this code.
- `load_tokenizer`, whose two branches are identical, and `main`: argument and environment parsing, exit code 2 on a failed load, `serve_forever`. The constructor takes the already-loaded tokenizer.
- HTTP methods other than GET and POST, which the base class answers itself.
- Concurrency: the server context is read-only, and the model handles one request at a time.
- Decode round-trip and the difference `add_generation_prompt` makes: both depend on the tokenizer and its template, which are opaque here.
- Identical requests get identical responses because the handler is a function of the request and the read-only context. No separate lemma states this.
