/** The demo settings: defaults taken from the environment when the
    settings class is defined, the post-initialisation defaults, the
    environment overrides of `get_demo_config` and the key validation. */
module DemoConfig {
  import opened Wrappers
  import opened Env

  const DefaultRegions: seq<string> := ["north", "central", "south", "special_zones"]
  const DefaultHierarchy: seq<string> :=
    ["hien_phap", "luat", "nghi_quyet", "nghi_dinh", "quyet_dinh", "thong_tu", "quyet_dinh_bo"]
  const DefaultApiBase: string := "https://api.openai.com/v1"

  /** The default region is one of the default regions. */
  lemma DefaultRegionListed()
    ensures "south" in DefaultRegions
  {
  }

  /** `DemoSettings`. The key, base-URL and Pinecone defaults are read from
      `classEnv`, the environment at the time the class is defined. */
  class DemoSettings {
    var openaiChatApiKey: string
    var openaiChatApiBase: string
    var openaiEmbeddingApiKey: string
    var openaiEmbeddingApiBase: string
    var pineconeApiKey: string
    var pineconeEnvironment: string
    var pineconeIndexName: string
    var serpApiKey: string
    var vietnameseRegions: seq<string>
    var documentHierarchy: seq<string>
    const chatModel: string := "gpt-4o-mini"
    const embeddingModel: string := "text-embedding-3-small"
    const temperature: real := 0.1
    const maxTokens: nat := 1000
    const topP: real := 0.9
    const topK: nat := 5
    const chunkSize: nat := 1000
    const chunkOverlap: nat := 200
    const similarityThreshold: real := 0.7
    const defaultRegion: string := "south"

    /** The dataclass constructor with `__post_init__`: the region list and
        the document hierarchy get their defaults only when not given. */
    constructor (classEnv: Environment, regions: Option<seq<string>>, hierarchy: Option<seq<string>>)
      ensures openaiChatApiKey == GetenvOr(classEnv, "OPENAI_API_KEY", "demo-chat-key")
      ensures openaiChatApiBase == GetenvOr(classEnv, "OPENAI_API_BASE", DefaultApiBase)
      ensures openaiEmbeddingApiKey == GetenvOr(classEnv, "OPENAI_EMBEDDING_API_KEY", "demo-embedding-key")
      ensures openaiEmbeddingApiBase == GetenvOr(classEnv, "OPENAI_EMBEDDING_API_BASE", DefaultApiBase)
      ensures pineconeApiKey == GetenvOr(classEnv, "PINECONE_API_KEY", "demo-pinecone-key")
      ensures pineconeEnvironment == GetenvOr(classEnv, "PINECONE_ENVIRONMENT", "us-east-1")
      ensures pineconeIndexName == GetenvOr(classEnv, "PINECONE_INDEX_NAME", "vietnamese-legal-docs")
      ensures serpApiKey == GetenvOr(classEnv, "SERP_API_KEY", "demo-serp-key")
      ensures vietnameseRegions == if regions.None? then DefaultRegions else regions.value
      ensures documentHierarchy == if hierarchy.None? then DefaultHierarchy else hierarchy.value
    {
      openaiChatApiKey := GetenvOr(classEnv, "OPENAI_API_KEY", "demo-chat-key");
      openaiChatApiBase := GetenvOr(classEnv, "OPENAI_API_BASE", DefaultApiBase);
      openaiEmbeddingApiKey := GetenvOr(classEnv, "OPENAI_EMBEDDING_API_KEY", "demo-embedding-key");
      openaiEmbeddingApiBase := GetenvOr(classEnv, "OPENAI_EMBEDDING_API_BASE", DefaultApiBase);
      pineconeApiKey := GetenvOr(classEnv, "PINECONE_API_KEY", "demo-pinecone-key");
      pineconeEnvironment := GetenvOr(classEnv, "PINECONE_ENVIRONMENT", "us-east-1");
      pineconeIndexName := GetenvOr(classEnv, "PINECONE_INDEX_NAME", "vietnamese-legal-docs");
      serpApiKey := GetenvOr(classEnv, "SERP_API_KEY", "demo-serp-key");
      vietnameseRegions := if regions.None? then DefaultRegions else regions.value;
      documentHierarchy := if hierarchy.None? then DefaultHierarchy else hierarchy.value;
    }
  }

  /** The chat key `get_demo_config` ends with: `OPENAI_CHAT_API_KEY` when
      set, else the class default. */
  function ChatKey(classEnv: Environment, env: Environment): string
  {
    GetenvOr(env, "OPENAI_CHAT_API_KEY", GetenvOr(classEnv, "OPENAI_API_KEY", "demo-chat-key"))
  }

  function EmbeddingKey(classEnv: Environment, env: Environment): string
  {
    GetenvOr(env, "OPENAI_EMBEDDING_API_KEY", GetenvOr(classEnv, "OPENAI_EMBEDDING_API_KEY", "demo-embedding-key"))
  }

  function PineconeKey(classEnv: Environment, env: Environment): string
  {
    GetenvOr(env, "PINECONE_API_KEY", GetenvOr(classEnv, "PINECONE_API_KEY", "demo-pinecone-key"))
  }

  /** `get_demo_config`: a fresh settings object whose seven connection
      fields are replaced by the environment's values where those are set;
      everything else keeps the class defaults. */
  method GetDemoConfig(classEnv: Environment, env: Environment) returns (config: DemoSettings)
    ensures fresh(config)
    ensures config.openaiChatApiKey == ChatKey(classEnv, env)
    ensures config.openaiChatApiBase
            == GetenvOr(env, "OPENAI_CHAT_API_BASE", GetenvOr(classEnv, "OPENAI_API_BASE", DefaultApiBase))
    ensures config.openaiEmbeddingApiKey == EmbeddingKey(classEnv, env)
    ensures config.openaiEmbeddingApiBase
            == GetenvOr(env, "OPENAI_EMBEDDING_API_BASE", GetenvOr(classEnv, "OPENAI_EMBEDDING_API_BASE", DefaultApiBase))
    ensures config.pineconeApiKey == PineconeKey(classEnv, env)
    ensures config.pineconeEnvironment
            == GetenvOr(env, "PINECONE_ENVIRONMENT", GetenvOr(classEnv, "PINECONE_ENVIRONMENT", "us-east-1"))
    ensures config.pineconeIndexName
            == GetenvOr(env, "PINECONE_INDEX_NAME", GetenvOr(classEnv, "PINECONE_INDEX_NAME", "vietnamese-legal-docs"))
    ensures config.serpApiKey == GetenvOr(classEnv, "SERP_API_KEY", "demo-serp-key")
    ensures config.vietnameseRegions == DefaultRegions && config.documentHierarchy == DefaultHierarchy
  {
    config := new DemoSettings(classEnv, None, None);
    config.openaiChatApiKey := GetenvOr(env, "OPENAI_CHAT_API_KEY", config.openaiChatApiKey);
    config.openaiChatApiBase := GetenvOr(env, "OPENAI_CHAT_API_BASE", config.openaiChatApiBase);
    config.openaiEmbeddingApiKey := GetenvOr(env, "OPENAI_EMBEDDING_API_KEY", config.openaiEmbeddingApiKey);
    config.openaiEmbeddingApiBase := GetenvOr(env, "OPENAI_EMBEDDING_API_BASE", config.openaiEmbeddingApiBase);
    config.pineconeApiKey := GetenvOr(env, "PINECONE_API_KEY", config.pineconeApiKey);
    config.pineconeEnvironment := GetenvOr(env, "PINECONE_ENVIRONMENT", config.pineconeEnvironment);
    config.pineconeIndexName := GetenvOr(env, "PINECONE_INDEX_NAME", config.pineconeIndexName);
  }

  const ChatIssue: string := "OpenAI Chat API key not configured"
  const EmbeddingIssue: string := "OpenAI Embedding API key not configured"
  const PineconeIssue: string := "Pinecone API key not configured"

  /** The issues for three keys: one per key that is empty or still its
      demo placeholder, in the order chat, embedding, Pinecone. */
  function KeyIssues(chat: string, embedding: string, pinecone: string): (issues: seq<string>)
    ensures |issues| <= 3
    ensures ChatIssue in issues <==> chat == "demo-chat-key" || chat == ""
    ensures EmbeddingIssue in issues <==> embedding == "demo-embedding-key" || embedding == ""
    ensures PineconeIssue in issues <==> pinecone == "demo-pinecone-key" || pinecone == ""
    ensures issues == [] <==> chat !in {"demo-chat-key", ""} && embedding !in {"demo-embedding-key", ""}
                              && pinecone !in {"demo-pinecone-key", ""}
  {
    Listed(chat == "demo-chat-key" || chat == "", ChatIssue)
    + Listed(embedding == "demo-embedding-key" || embedding == "", EmbeddingIssue)
    + Listed(pinecone == "demo-pinecone-key" || pinecone == "", PineconeIssue)
  }

  /** `validate_api_keys`. */
  method ValidateApiKeys(classEnv: Environment, env: Environment) returns (issues: seq<string>)
    ensures issues == KeyIssues(ChatKey(classEnv, env), EmbeddingKey(classEnv, env), PineconeKey(classEnv, env))
  {
    var config := GetDemoConfig(classEnv, env);
    ghost var chat, embedding, pinecone := config.openaiChatApiKey, config.openaiEmbeddingApiKey, config.pineconeApiKey;
    issues := [];
    if config.openaiChatApiKey == "demo-chat-key" || config.openaiChatApiKey == "" {
      issues := issues + [ChatIssue];
    }
    ghost var first := issues;
    assert first == Listed(chat == "demo-chat-key" || chat == "", ChatIssue);
    if config.openaiEmbeddingApiKey == "demo-embedding-key" || config.openaiEmbeddingApiKey == "" {
      issues := issues + [EmbeddingIssue];
    }
    ghost var second := issues;
    assert second == first + Listed(embedding == "demo-embedding-key" || embedding == "", EmbeddingIssue);
    if config.pineconeApiKey == "demo-pinecone-key" || config.pineconeApiKey == "" {
      issues := issues + [PineconeIssue];
    }
    assert issues == second + Listed(pinecone == "demo-pinecone-key" || pinecone == "", PineconeIssue);
  }

  /** With none of the key variables set, all three keys are reported. */
  lemma EmptyEnvironmentReportsAll(classEnv: Environment, env: Environment)
    requires "OPENAI_API_KEY" !in classEnv && "OPENAI_CHAT_API_KEY" !in env
    requires "OPENAI_EMBEDDING_API_KEY" !in classEnv && "OPENAI_EMBEDDING_API_KEY" !in env
    requires "PINECONE_API_KEY" !in classEnv && "PINECONE_API_KEY" !in env
    ensures KeyIssues(ChatKey(classEnv, env), EmbeddingKey(classEnv, env), PineconeKey(classEnv, env))
      == [ChatIssue, EmbeddingIssue, PineconeIssue]
  {
  }

  /** A chat key given only as `OPENAI_API_KEY` when the class is defined is
      kept by `get_demo_config` unless `OPENAI_CHAT_API_KEY` is set. */
  lemma ChatKeyFallsBack(classEnv: Environment, env: Environment)
    requires "OPENAI_CHAT_API_KEY" !in env && "OPENAI_API_KEY" in classEnv
    ensures ChatKey(classEnv, env) == classEnv["OPENAI_API_KEY"]
  {
  }
}
