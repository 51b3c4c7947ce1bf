/** The embedding-model catalogue and the choice of a model: a fixed table
    of three models, automatic selection by priority with an access test
    (an input standing for the network call) and the recommendation by use
    case. */
module EmbeddingConfig {
  import opened Wrappers
  import opened Env

  /** `EmbeddingModelConfig`; prices are USD per thousand tokens. */
  datatype ModelConfig = ModelConfig(name: string, modelId: string, dimension: nat, maxTokens: nat,
                                     pricingPer1k: real, description: string, requiresSpecialAccess: bool,
                                     supportedLanguages: seq<string>)

  const DefaultLanguages: seq<string> := ["english", "vietnamese"]

  /** The dataclass constructor followed by `__post_init__`: a missing list
      of languages becomes English and Vietnamese. */
  function NewModelConfig(name: string, modelId: string, dimension: nat, maxTokens: nat, pricingPer1k: real,
                          description: string, requiresSpecialAccess: bool, supportedLanguages: Option<seq<string>>)
    : (c: ModelConfig)
    ensures supportedLanguages.None? ==> c.supportedLanguages == DefaultLanguages
    ensures supportedLanguages.Some? ==> c.supportedLanguages == supportedLanguages.value
    ensures c.name == name && c.modelId == modelId && c.dimension == dimension && c.maxTokens == maxTokens
    ensures c.pricingPer1k == pricingPer1k && c.description == description
    ensures c.requiresSpecialAccess == requiresSpecialAccess
  {
    ModelConfig(name, modelId, dimension, maxTokens, pricingPer1k, description, requiresSpecialAccess,
                if supportedLanguages.None? then DefaultLanguages else supportedLanguages.value)
  }

  const Ada: string := "text-embedding-ada-002"
  const Small: string := "text-embedding-3-small"
  const Large: string := "text-embedding-3-large"

  /** `SUPPORTED_MODELS`. */
  const SupportedModels: map<string, ModelConfig> := map[
    Ada := NewModelConfig("Ada 002", Ada, 1536, 8191, 0.0001,
                          "OpenAI legacy embedding model, stable and reliable", false, None),
    Small := NewModelConfig("Embedding 3 Small", Small, 1536, 8191, 0.00002,
                            "Latest OpenAI embedding model, better performance", true, None),
    Large := NewModelConfig("Embedding 3 Large", Large, 3072, 8191, 0.00013,
                            "Highest quality OpenAI embedding model", true, None)]

  /** The order in which `auto_select_model` tries the models. */
  const PriorityModels: seq<string> := [Ada, Small, Large]

  /** Every table entry is filed under its own model id, supports English and
      Vietnamese, and the priority list names exactly the table's models. */
  lemma SupportedModelsWellFormed()
    ensures SupportedModels.Keys == {Ada, Small, Large}
    ensures forall k | k in SupportedModels :: SupportedModels[k].modelId == k
    ensures forall k | k in SupportedModels :: SupportedModels[k].supportedLanguages == DefaultLanguages
    ensures forall i | 0 <= i < |PriorityModels| :: PriorityModels[i] in SupportedModels
  {
  }

  /** The use-case names with a fixed recommendation. */
  const UseCases: set<string> := {"high_quality", "cost_effective", "balanced"}

  /** `EmbeddingModelManager`. */
  class EmbeddingModelManager {
    /** The key, after the fallbacks; `None` when none is set. */
    const apiKey: Option<string>
    const currentModel: string := Ada
    const preferredModel: string := Ada

    /** The key is the one given, else `OPENAI_EMBEDDING_API_KEY`, else
        `OPENAI_API_KEY`, each taken only when non-empty. */
    constructor (apiKey: Option<string>, env: Environment)
      ensures this.apiKey == Or(Or(apiKey, Getenv(env, "OPENAI_EMBEDDING_API_KEY")), Getenv(env, "OPENAI_API_KEY"))
    {
      this.apiKey := Or(Or(apiKey, Getenv(env, "OPENAI_EMBEDDING_API_KEY")), Getenv(env, "OPENAI_API_KEY"));
    }

    /** `get_model_config`: `None` for an unsupported id. */
    function GetModelConfig(modelId: string): (r: Option<ModelConfig>)
      ensures r.Some? <==> modelId in {Ada, Small, Large}
      ensures r.Some? ==> r.value == SupportedModels[modelId] && r.value.modelId == modelId
    {
      if modelId in SupportedModels then Some(SupportedModels[modelId]) else None
    }

    /** `list_available_models`: a copy of the table. A map is a value, so
        changing the copy cannot change the table. */
    function ListAvailableModels(): (r: map<string, ModelConfig>)
      ensures r.Keys == {Ada, Small, Large}
      ensures forall k | k in r :: r[k] == SupportedModels[k] && r[k].modelId == k
    {
      SupportedModels
    }

    /** `auto_select_model`; `access(model, key)` stands for
        `test_model_access`. With no usable key, or a demo key, the current
        model is returned without testing; otherwise the first accessible
        model in priority order, falling back to Ada 002. */
    method AutoSelectModel(apiKey: Option<string>, access: (string, string) -> bool) returns (model: string)
      ensures model in SupportedModels
      ensures var key := Or(apiKey, this.apiKey);
        (!Truthy(key) || "demo-" <= key.value) ==> model == Ada
      ensures var key := Or(apiKey, this.apiKey);
        (Truthy(key) && !("demo-" <= key.value)) ==>
          (exists i | 0 <= i < |PriorityModels| ::
             model == PriorityModels[i] && access(model, key.value)
             && forall j | 0 <= j < i :: !access(PriorityModels[j], key.value))
          || (model == Ada && forall j | 0 <= j < |PriorityModels| :: !access(PriorityModels[j], key.value))
    {
      var key := Or(apiKey, this.apiKey);
      if !Truthy(key) || "demo-" <= key.value {
        return currentModel;
      }
      var i := 0;
      while i < |PriorityModels|
        invariant 0 <= i <= |PriorityModels|
        invariant forall j | 0 <= j < i :: !access(PriorityModels[j], key.value)
      {
        if access(PriorityModels[i], key.value) {
          return PriorityModels[i];
        }
        i := i + 1;
      }
      return Ada;
    }

    /** `get_recommended_model`: the known use cases map to fixed models,
        anything else to the preferred model. */
    function GetRecommendedModel(useCase: string): (r: string)
      ensures r in SupportedModels
      ensures useCase !in UseCases ==> r == preferredModel
      ensures useCase == "high_quality" ==> r == Large
      ensures useCase == "cost_effective" ==> r == Ada
      ensures useCase == "balanced" ==> r == Small
    {
      if useCase == "high_quality" then Large
      else if useCase == "cost_effective" then Ada
      else if useCase == "balanced" then Small
      else preferredModel
    }
  }

  /** The high-quality recommendation is the model with the largest
      dimension. */
  lemma HighQualityHasLargestDimension(m: EmbeddingModelManager, k: string)
    requires k in SupportedModels
    ensures SupportedModels[m.GetRecommendedModel("high_quality")].dimension >= SupportedModels[k].dimension
  {
  }
}
