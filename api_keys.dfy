/** The API-key manager: the three keys loaded from the environment with
    fallbacks, the validity test, the missing-key report, the demo mode and
    the production set-up. */
module ApiKeys {
  import opened Wrappers
  import opened Strings
  import opened Env

  /** `_is_valid_key`: a usable key is present, is not a demo or test key,
      and is longer than ten characters once stripped. */
  function IsValidKey(key: Option<string>): (r: bool)
    ensures r ==> key.Some? && |key.value| > 10 && !("demo-" <= key.value) && key.value != "test-key"
    ensures !Truthy(key) ==> !r
  {
    if !Truthy(key) then false
    else if "demo-" <= key.value || key.value == "test-key" then false
    else |Strip(key.value)| > 10
  }

  /** A key that is ten characters or shorter is never valid, whatever it
      holds. */
  lemma ShortKeyInvalid(key: string)
    requires |key| <= 10
    ensures !IsValidKey(Some(key))
  {
    if Truthy(Some(key)) && !("demo-" <= key) && key != "test-key" {
      assert |Strip(key)| <= |TrimStart(key)| <= |key|;
    }
  }

  const ChatMissing: string := "Chat API Key (OPENAI_API_KEY hoặc OPENAI_CHAT_API_KEY)"
  const EmbeddingMissing: string := "Embedding API Key (OPENAI_EMBEDDING_API_KEY)"
  const PineconeMissing: string := "Pinecone API Key (PINECONE_API_KEY)"

  /** The missing-key report: the invalid keys, in the order chat,
      embedding, Pinecone. */
  function MissingKeys(chat: Option<string>, embedding: Option<string>, pinecone: Option<string>)
    : (missing: seq<string>)
    ensures |missing| <= 3
    ensures missing == [] <==> IsValidKey(chat) && IsValidKey(embedding) && IsValidKey(pinecone)
    ensures ChatMissing in missing <==> !IsValidKey(chat)
    ensures EmbeddingMissing in missing <==> !IsValidKey(embedding)
    ensures PineconeMissing in missing <==> !IsValidKey(pinecone)
    ensures !IsValidKey(chat) ==> missing[0] == ChatMissing
  {
    Listed(!IsValidKey(chat), ChatMissing) + Listed(!IsValidKey(embedding), EmbeddingMissing)
    + Listed(!IsValidKey(pinecone), PineconeMissing)
  }

  /** The verdict map of `validate_keys`. */
  function Verdicts(chat: bool, embedding: bool, pinecone: bool): (m: map<string, bool>)
    ensures m.Keys == {"chat_api_valid", "embedding_api_valid", "pinecone_api_valid"}
    ensures m["chat_api_valid"] == chat && m["embedding_api_valid"] == embedding
    ensures m["pinecone_api_valid"] == pinecone
  {
    map["chat_api_valid" := chat, "embedding_api_valid" := embedding, "pinecone_api_valid" := pinecone]
  }

  /** `APIKeyManager`. */
  class ApiKeyManager {
    var chatApiKey: Option<string>
    var embeddingApiKey: Option<string>
    var pineconeApiKey: Option<string>

    constructor (env: Environment)
      ensures chatApiKey == Or(Getenv(env, "OPENAI_API_KEY"), Getenv(env, "OPENAI_CHAT_API_KEY"))
      ensures embeddingApiKey == Or(Getenv(env, "OPENAI_EMBEDDING_API_KEY"), Getenv(env, "OPENAI_API_KEY"))
      ensures pineconeApiKey == Getenv(env, "PINECONE_API_KEY")
    {
      chatApiKey := None;
      embeddingApiKey := None;
      pineconeApiKey := None;
      new;
      LoadKeys(env);
    }

    /** `_load_keys`: the chat key is `OPENAI_API_KEY`, else
        `OPENAI_CHAT_API_KEY`; the embedding key is
        `OPENAI_EMBEDDING_API_KEY`, else `OPENAI_API_KEY`; an empty value
        counts as unset. */
    method LoadKeys(env: Environment)
      modifies this
      ensures chatApiKey == Or(Getenv(env, "OPENAI_API_KEY"), Getenv(env, "OPENAI_CHAT_API_KEY"))
      ensures embeddingApiKey == Or(Getenv(env, "OPENAI_EMBEDDING_API_KEY"), Getenv(env, "OPENAI_API_KEY"))
      ensures pineconeApiKey == Getenv(env, "PINECONE_API_KEY")
    {
      chatApiKey := Or(Getenv(env, "OPENAI_API_KEY"), Getenv(env, "OPENAI_CHAT_API_KEY"));
      embeddingApiKey := Or(Getenv(env, "OPENAI_EMBEDDING_API_KEY"), Getenv(env, "OPENAI_API_KEY"));
      pineconeApiKey := Getenv(env, "PINECONE_API_KEY");
    }

    /** `validate_keys`: the per-key verdicts and whether all hold. */
    function ValidateKeys(): (r: (bool, map<string, bool>))
      reads this
      ensures r.1.Keys == {"chat_api_valid", "embedding_api_valid", "pinecone_api_valid"}
      ensures r.1["chat_api_valid"] == IsValidKey(chatApiKey)
      ensures r.1["embedding_api_valid"] == IsValidKey(embeddingApiKey)
      ensures r.1["pinecone_api_valid"] == IsValidKey(pineconeApiKey)
      ensures r.0 <==> IsValidKey(chatApiKey) && IsValidKey(embeddingApiKey) && IsValidKey(pineconeApiKey)
    {
      var chat, embedding, pinecone := IsValidKey(chatApiKey), IsValidKey(embeddingApiKey), IsValidKey(pineconeApiKey);
      (chat && embedding && pinecone, Verdicts(chat, embedding, pinecone))
    }

    /** `get_missing_keys`. */
    method GetMissingKeys() returns (missing: seq<string>)
      ensures missing == MissingKeys(chatApiKey, embeddingApiKey, pineconeApiKey)
      ensures missing == [] <==> ValidateKeys().0
    {
      missing := [];
      if !IsValidKey(chatApiKey) {
        missing := missing + [ChatMissing];
      }
      ghost var first := missing;
      assert first == Listed(!IsValidKey(chatApiKey), ChatMissing);
      if !IsValidKey(embeddingApiKey) {
        missing := missing + [EmbeddingMissing];
      }
      ghost var second := missing;
      assert second == first + Listed(!IsValidKey(embeddingApiKey), EmbeddingMissing);
      if !IsValidKey(pineconeApiKey) {
        missing := missing + [PineconeMissing];
      }
      assert missing == second + Listed(!IsValidKey(pineconeApiKey), PineconeMissing);
    }

    /** `set_demo_mode`. */
    method SetDemoMode()
      modifies this
      ensures chatApiKey == Some("demo-chat-key") && embeddingApiKey == Some("demo-embedding-key")
      ensures pineconeApiKey == Some("demo-pinecone-key")
      ensures MissingKeys(chatApiKey, embeddingApiKey, pineconeApiKey) == [ChatMissing, EmbeddingMissing, PineconeMissing]
    {
      chatApiKey := Some("demo-chat-key");
      embeddingApiKey := Some("demo-embedding-key");
      pineconeApiKey := Some("demo-pinecone-key");
      DemoKeysInvalid();
    }
  }

  /** The three demo keys are all invalid, so all three are reported
      missing. */
  lemma DemoKeysInvalid()
    ensures !IsValidKey(Some("demo-chat-key")) && !IsValidKey(Some("demo-embedding-key"))
    ensures !IsValidKey(Some("demo-pinecone-key"))
    ensures MissingKeys(Some("demo-chat-key"), Some("demo-embedding-key"), Some("demo-pinecone-key"))
      == [ChatMissing, EmbeddingMissing, PineconeMissing]
  {
    DemoPrefixInvalid("demo-chat-key");
    DemoPrefixInvalid("demo-embedding-key");
    DemoPrefixInvalid("demo-pinecone-key");
  }

  /** A key starting with `demo-` is never valid. */
  lemma DemoPrefixInvalid(key: string)
    requires |key| >= 5 && key[..5] == "demo-"
    ensures !IsValidKey(Some(key))
  {
    assert "demo-" <= key;
  }

  /** `setup_production_keys`: fails iff some key is invalid, naming the
      missing keys. */
  method SetupProductionKeys(manager: ApiKeyManager) returns (r: Result<ApiKeyManager, string>)
    ensures r.Err? <==> !manager.ValidateKeys().0
    ensures r.Err? ==>
      r.error == "Missing required API keys: "
                 + Join(MissingKeys(manager.chatApiKey, manager.embeddingApiKey, manager.pineconeApiKey), ", ")
    ensures r.Ok? ==> r.value == manager
  {
    var validation := manager.ValidateKeys();
    if !validation.0 {
      var missing := manager.GetMissingKeys();
      return Err("Missing required API keys: " + Join(missing, ", "));
    }
    return Ok(manager);
  }

  /** `setup_demo_keys`. */
  method SetupDemoKeys(manager: ApiKeyManager) returns (r: ApiKeyManager)
    modifies manager
    ensures r == manager && !manager.ValidateKeys().0
    ensures manager.chatApiKey == Some("demo-chat-key") && manager.embeddingApiKey == Some("demo-embedding-key")
    ensures manager.pineconeApiKey == Some("demo-pinecone-key")
  {
    manager.SetDemoMode();
    return manager;
  }
}
