/**
  * The tokenizer adapter: a thin object around a loaded tokenizer that
  * renders a conversation through the chat template and tokenizes the
  * rendered prompt, decodes token ids, and exposes the special token ids.
  */
module TokenizerAdapter {
  import opened Wrappers
  import opened JsonValue

  /** A token id is an index into the vocabulary. */
  type TokenId = nat

  /**
    * The loaded tokenizer, kept opaque: every property below holds for
    * every chat template, encoder and decoder. Each call may fail with the
    * text of the exception it raises.
    */
  datatype Tokenizer = Tokenizer(
    applyChatTemplate: (seq<Json>, bool) -> Result<string, string>,
    encode: string -> Result<seq<TokenId>, string>,
    decode: Json -> Result<string, string>,
    bosTokenId: Option<TokenId>,
    eosTokenId: Option<TokenId>)

  /** The chat message `{"role": role, "content": content}`. */
  function Message(role: string, content: Json): Json {
    Object(map["role" := Str(role), "content" := content])
  }

  /**
    * The conversation `encode_from_text` renders: a system message when the
    * system content is truthy, then the user message.
    */
  function TextMessages(text: Json, systemContent: Json): (msgs: seq<Json>)
    ensures |msgs| == if Truthy(systemContent) then 2 else 1
    ensures msgs[|msgs| - 1] == Message("user", text)
    ensures Truthy(systemContent) ==> msgs[0] == Message("system", systemContent)
  {
    (if Truthy(systemContent) then [Message("system", systemContent)] else []) + [Message("user", text)]
  }

  /**
    * Render `messages` through the chat template (not tokenized) and
    * tokenize the rendered prompt; the first failure is the outcome.
    */
  function Tokenize(tok: Tokenizer, messages: seq<Json>, addGenerationPrompt: bool): Result<seq<TokenId>, string> {
    match tok.applyChatTemplate(messages, addGenerationPrompt)
    case Failure(e) => Failure(e)
    case Success(prompt) => tok.encode(prompt)
  }

  class TokenizerHttp {
    /** The loaded tokenizer; set once and never replaced. */
    const tok: Tokenizer

    constructor (loaded: Tokenizer)
      ensures tok == loaded
    {
      tok := loaded;
    }

    /** Encode `text` as the user's turn, after an optional system turn. */
    method EncodeFromText(text: Json, systemContent: Json := Str(""), addGenerationPrompt: bool := true)
      returns (ids: Result<seq<TokenId>, string>)
      ensures ids == Tokenize(tok, TextMessages(text, systemContent), addGenerationPrompt)
    {
      var messages: seq<Json> := [];
      if Truthy(systemContent) {
        messages := messages + [Message("system", systemContent)];
      }
      messages := messages + [Message("user", text)];
      assert messages == TextMessages(text, systemContent);
      var prompt := tok.applyChatTemplate(messages, addGenerationPrompt);
      if prompt.Failure? {
        return Failure(prompt.error);
      }
      ids := tok.encode(prompt.value);
    }

    /** Encode a caller-supplied conversation, passed to the template as is. */
    method EncodeFromMessages(messages: seq<Json>, addGenerationPrompt: bool := true)
      returns (ids: Result<seq<TokenId>, string>)
      ensures ids == Tokenize(tok, messages, addGenerationPrompt)
    {
      var prompt := tok.applyChatTemplate(messages, addGenerationPrompt);
      if prompt.Failure? {
        return Failure(prompt.error);
      }
      ids := tok.encode(prompt.value);
    }

    /** Decode whatever the caller sent as token ids. */
    method Decode(tokenIds: Json) returns (text: Result<string, string>)
      ensures text == tok.decode(tokenIds)
    {
      text := tok.decode(tokenIds);
    }

    /** The beginning-of-sequence id, `None` when the tokenizer has none. */
    function BosId(): (id: Option<TokenId>)
      ensures id == tok.bosTokenId
    {
      tok.bosTokenId
    }

    /** The end-of-sequence id, `None` when the tokenizer has none. */
    function EosId(): (id: Option<TokenId>)
      ensures id == tok.eosTokenId
    {
      tok.eosTokenId
    }
  }
}
