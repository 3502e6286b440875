/**
 * Per-intent search parameters: the rerank threshold (keyed by reranker
 * family), the per-page diversity cap, context expansion, hierarchy boost
 * and context window size.
 *
 * Environment overrides arrive already parsed as reals (`None` when the
 * variable is unset).
 */
module IntentConfig {
  import opened Wrappers
  import opened Text

  datatype Config = Config(
    rerankThreshold: real, diversityLimit: nat, expandContext: bool, boostHierarchy: bool, contextWindow: nat)

  /** RERANK_THRESHOLD_TECHNICAL, RERANK_THRESHOLD_GENERAL, RERANK_THRESHOLD_EXPLORATORY. */
  datatype ThresholdEnv = ThresholdEnv(technical: Option<real>, general: Option<real>, exploratory: Option<real>)

  const DefaultReranker: string := "DiTy/cross-encoder-russian-msmarco"

  function OrElse(v: Option<real>, d: real): real {
    if v.Some? then v.value else d
  }

  /** The reranker in use: the argument, else RE_RANKER_MODEL, else the default model. */
  function RerankerModel(arg: Option<string>, envModel: Option<string>): string {
    if arg.Some? then arg.value else if envModel.Some? then envModel.value else DefaultReranker
  }

  /** A BGE reranker: "bge-reranker" occurs in the lower-cased model name. */
  predicate IsBge(model: string) {
    Contains(Lower(model), "bge-reranker")
  }

  function BaseTechnical(env: ThresholdEnv): real {
    OrElse(env.technical, 0.01)
  }

  /** The general threshold defaults to 0.001 for BGE rerankers and 0.005 for others. */
  function BaseGeneral(model: string, env: ThresholdEnv): real {
    OrElse(env.general, if IsBge(model) then 0.001 else 0.005)
  }

  /** The exploratory threshold: its own setting (default 0.0001) for BGE, half the general one otherwise. */
  function ExploratoryThreshold(model: string, env: ThresholdEnv): real {
    if IsBge(model) then OrElse(env.exploratory, 0.0001) else BaseGeneral(model, env) * 0.5
  }

  /** `get_intent_config`: the table row for the lower-cased intent name, with a fallback row. */
  function GetIntentConfig(intent: string, model: string, env: ThresholdEnv): (r: Config)
    ensures r.boostHierarchy <==> Lower(intent) == "navigational"
    ensures !r.expandContext <==> Lower(intent) == "navigational"
    ensures Lower(intent) !in {"navigational", "howto", "factual", "exploratory"} ==>
              r == Config(BaseGeneral(model, env), 2, true, false, 2)
  {
    var i := Lower(intent);
    var general := BaseGeneral(model, env);
    if i == "navigational" then Config(general * 1.5, 1, false, true, 2)
    else if i == "howto" then Config(BaseTechnical(env), 3, true, false, 3)
    else if i == "factual" then Config(general, 3, true, false, 3)
    else if i == "exploratory" then Config(ExploratoryThreshold(model, env), 2, true, false, 4)
    else Config(general, 2, true, false, 2)
  }

  /** Diversity caps 1/3/3/2 per intent, 2 otherwise; context windows 2/3/3/4, 2 otherwise. */
  lemma IntentTable(intent: string, model: string, env: ThresholdEnv)
    ensures var c := GetIntentConfig(intent, model, env);
            var i := Lower(intent);
            c.diversityLimit == (if i == "navigational" then 1 else if i == "howto" || i == "factual" then 3 else 2)
            && c.contextWindow == (if i == "navigational" then 2 else if i == "howto" || i == "factual" then 3
                                   else if i == "exploratory" then 4 else 2)
  {
  }

  /** The intent name is matched case-insensitively. */
  lemma IntentCaseInsensitive(intent: string, model: string, env: ThresholdEnv)
    ensures GetIntentConfig(intent, model, env) == GetIntentConfig(Lower(intent), model, env)
  {
    LowerIdempotent(intent);
  }

  /**
   * Thresholds by intent: navigational is 1.5 times the general one, how-to
   * the technical one, factual the general one; for a non-BGE reranker with
   * a positive general threshold exploratory is strictly below factual.
   */
  lemma ThresholdOrdering(model: string, env: ThresholdEnv)
    ensures GetIntentConfig("navigational", model, env).rerankThreshold == 1.5 * BaseGeneral(model, env)
    ensures GetIntentConfig("howto", model, env).rerankThreshold == BaseTechnical(env)
    ensures GetIntentConfig("factual", model, env).rerankThreshold == BaseGeneral(model, env)
    ensures !IsBge(model) && BaseGeneral(model, env) > 0.0 ==>
              GetIntentConfig("exploratory", model, env).rerankThreshold < GetIntentConfig("factual", model, env).rerankThreshold
  {
    LowerFixed("navigational");
    LowerFixed("howto");
    LowerFixed("factual");
    LowerFixed("exploratory");
  }

  /**
   * `get_adaptive_rerank_threshold`: a technical query uses the smaller of
   * the intent's threshold and the technical one.
   */
  function AdaptiveRerankThreshold(intent: string, isTechnical: bool, model: string, env: ThresholdEnv): (r: real)
    ensures r <= GetIntentConfig(intent, model, env).rerankThreshold
    ensures isTechnical ==> r <= BaseTechnical(env)
    ensures !isTechnical ==> r == GetIntentConfig(intent, model, env).rerankThreshold
    ensures r == GetIntentConfig(intent, model, env).rerankThreshold || (isTechnical && r == BaseTechnical(env))
  {
    var c := GetIntentConfig(intent, model, env);
    if isTechnical then (if c.rerankThreshold <= BaseTechnical(env) then c.rerankThreshold else BaseTechnical(env))
    else c.rerankThreshold
  }

  /** `get_adaptive_context_window`. */
  function AdaptiveContextWindow(intent: string, model: string, env: ThresholdEnv): (r: nat)
    ensures 2 <= r <= 4
    ensures r == 4 <==> Lower(intent) == "exploratory"
  {
    GetIntentConfig(intent, model, env).contextWindow
  }
}
