/** The model table of server/src/lib/groq-models.ts, its lookup by id and the per-tier recommendation. */
module GroqModels {
  import opened Wrappers
  import ChatRelay

  datatype Speed = FastSpeed | MediumSpeed | SlowSpeed
  datatype Cost = LowCost | MediumCost | HighCost

  datatype GroqModel = GroqModel(id: string, name: string, description: string, contextWindow: nat, speed: Speed, cost: Cost)

  /** `GROQ_MODELS`. */
  const GROQ_MODELS: seq<GroqModel> := [
    GroqModel("llama-3.1-70b-versatile", "Llama 3.1 70B Versatile", "High-quality model for general conversations",
              128000, MediumSpeed, MediumCost),
    GroqModel("mixtral-8x7b-32768", "Mixtral 8x7B", "Fast and efficient for quick responses",
              32768, FastSpeed, LowCost),
    GroqModel("llama-3.1-8b-instant", "Llama 3.1 8B Instant", "Ultra-fast responses for casual chat",
              131072, FastSpeed, LowCost),
    GroqModel("gemma-7b-it", "Gemma 7B", "Google's efficient model",
              8192, FastSpeed, LowCost)
  ]

  /** `models.find(model => model.id === id)` from position `i` on. */
  function FindFrom(models: seq<GroqModel>, id: string, i: nat): (r: Option<nat>)
    requires i <= |models|
    ensures r.Some? ==> i <= r.value < |models| && models[r.value].id == id
    ensures r.Some? ==> forall j :: i <= j < r.value ==> models[j].id != id
    ensures r.None? <==> forall j :: i <= j < |models| ==> models[j].id != id
    decreases |models| - i
  {
    if i == |models| then None
    else if models[i].id == id then Some(i)
    else FindFrom(models, id, i + 1)
  }

  /** `getModelById`: the first model with this id, or nothing when no model has it. */
  function GetModelById(id: string): (r: Option<GroqModel>)
    ensures r.Some? ==> r.value in GROQ_MODELS && r.value.id == id
    ensures r.None? <==> forall j :: 0 <= j < |GROQ_MODELS| ==> GROQ_MODELS[j].id != id
  {
    var i := FindFrom(GROQ_MODELS, id, 0);
    if i.Some? then Some(GROQ_MODELS[i.value]) else None
  }

  predicate IdsDistinct(models: seq<GroqModel>) {
    forall i, j :: 0 <= i < j < |models| ==> models[i].id != models[j].id
  }

  /** No two models share an id, so every model is found by its own id. */
  lemma ModelsFoundById(k: nat)
    requires k < |GROQ_MODELS|
    ensures IdsDistinct(GROQ_MODELS)
    ensures GetModelById(GROQ_MODELS[k].id) == Some(GROQ_MODELS[k])
  {
    assert IdsDistinct(GROQ_MODELS);
    assert FindFrom(GROQ_MODELS, GROQ_MODELS[k].id, 0).value == k;
  }

  /** `getRecommendedModel`: the first model for `premium`, the second for `free` and any other tier. */
  function GetRecommendedModel(userTier: string): (m: GroqModel)
    ensures m in GROQ_MODELS
    ensures userTier == "premium" ==> m == GROQ_MODELS[0] && m.id == "llama-3.1-70b-versatile"
    ensures userTier != "premium" ==> m == GROQ_MODELS[1] && m.id == "mixtral-8x7b-32768"
  {
    if userTier == "premium" then GROQ_MODELS[0] else GROQ_MODELS[1]
  }

  /** A recommendation is always found again by its id; the chat routes' default model is in the table. */
  lemma RecommendationResolves(userTier: string)
    ensures GetModelById(GetRecommendedModel(userTier).id) == Some(GetRecommendedModel(userTier))
    ensures GetModelById(ChatRelay.DEFAULT_MODEL) == Some(GROQ_MODELS[0])
  {
    ModelsFoundById(0);
    ModelsFoundById(1);
  }
}
