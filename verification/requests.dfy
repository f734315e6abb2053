/** The request `retrieveAndGenerate` hands to the retrieval-and-generation
    endpoint, and `perform_search`, which builds the retrieval configuration
    and then issues the request. The network call itself is not modelled:
    the request record is the result. */
module Requests {
  import opened Wrappers
  import opened Strings
  import opened Filters

  /** Appended verbatim to every query. */
  const FormattingSuffix :=
    ".  If there is a list of steps or a list of bullet points, make sure there are two NEWLINE characters before the first point."

  const KnowledgeBaseType := "KNOWLEDGE_BASE"
  const ArnPrefix := "arn:aws:bedrock:"
  const ArnInfix := "::foundation-model/"

  /** The module-level identifiers the page passes in. */
  const AppModelId := "anthropic.claude-3-sonnet-20240229-v1:0"
  const AppRegionId := "us-east-1"

  /** `knowledgeBaseConfiguration`; `retrievalConfiguration` models the key
      that would carry the filter. */
  datatype KnowledgeBaseConfig = KnowledgeBaseConfig(
    knowledgeBaseId: string, modelArn: string, retrievalConfiguration: Option<RetrievalConfig>)

  /** `retrieveAndGenerateConfiguration`; `kind` is the `type` key. */
  datatype RagConfig = RagConfig(kind: string, knowledgeBaseConfiguration: KnowledgeBaseConfig)

  /** The arguments of the `retrieve_and_generate` call. */
  datatype Request = Request(inputText: string, config: RagConfig, sessionId: Option<string>)

  predicate NoColon(s: string) {
    forall k | 0 <= k < |s| :: s[k] != ':'
  }

  /** `f'arn:aws:bedrock:{region_id}::foundation-model/{model_id}'`. */
  function ModelArn(regionId: string, modelId: string): (arn: string)
    ensures StartsWith(arn, ArnPrefix + regionId + ArnInfix)
    ensures |arn| == |ArnPrefix| + |regionId| + |ArnInfix| + |modelId|
    ensures arn[|arn| - |modelId|..] == modelId
  {
    var arn := ArnPrefix + regionId + ArnInfix + modelId;
    assert arn[..|ArnPrefix + regionId + ArnInfix|] == ArnPrefix + regionId + ArnInfix;
    assert arn[|arn| - |modelId|..] == modelId;
    arn
  }

  /** The region and the model can be read back from the ARN, given that
      the region has no `:` (the model identifier may: `...-v1:0`). */
  lemma ModelArnInjective(region: string, model: string, region': string, model': string)
    requires NoColon(region) && NoColon(region')
    requires ModelArn(region, model) == ModelArn(region', model')
    ensures region == region' && model == model'
  {
    var arn := ModelArn(region, model);
    var n, n' := |ArnPrefix| + |region|, |ArnPrefix| + |region'|;
    assert arn[n] == ':' by { assert arn[..|ArnPrefix + region + ArnInfix|] == ArnPrefix + region + ArnInfix; }
    assert arn[n'] == ':' by {
      assert arn[..|ArnPrefix + region' + ArnInfix|] == ArnPrefix + region' + ArnInfix;
    }
    if |region| < |region'| {
      assert false;
    } else if |region'| < |region| {
      assert false;
    }
    assert region == arn[|ArnPrefix|..n] == region';
  }

  /** `retrieveAndGenerate`. The query gets the formatting suffix, the
      session id is passed only when truthy, and the retrieval
      configuration argument is accepted but never attached. */
  function RetrieveAndGenerate(
    input: string, kbId: string, sessionId: Option<string>, modelId: string, regionId: string,
    retrievalConfiguration: Option<RetrievalConfig>)
    : (r: Request)
    ensures r.config.kind == KnowledgeBaseType
    ensures r.config.knowledgeBaseConfiguration.knowledgeBaseId == kbId
    ensures r.config.knowledgeBaseConfiguration.modelArn == ModelArn(regionId, modelId)
    ensures r.config.knowledgeBaseConfiguration.retrievalConfiguration.None?
    ensures StartsWith(r.inputText, input) && r.inputText[|input|..] == FormattingSuffix
    ensures r.sessionId.Some? <==> Truthy(sessionId)
    ensures r.sessionId.Some? ==> r.sessionId == sessionId
  {
    var ragConfig := RagConfig(KnowledgeBaseType, KnowledgeBaseConfig(kbId, ModelArn(regionId, modelId), None));
    var text := input + FormattingSuffix;
    assert text[..|input|] == input && text[|input|..] == FormattingSuffix;
    if Truthy(sessionId) then Request(text, ragConfig, sessionId)
    else Request(text, ragConfig, None)
  }

  /** Whatever retrieval configuration is passed, the request is the same:
      the filter never reaches the service. */
  lemma RetrievalConfigurationIgnored(
    input: string, kbId: string, sessionId: Option<string>, modelId: string, regionId: string,
    rc: Option<RetrievalConfig>, rc': Option<RetrievalConfig>)
    ensures RetrieveAndGenerate(input, kbId, sessionId, modelId, regionId, rc)
         == RetrieveAndGenerate(input, kbId, sessionId, modelId, regionId, rc')
  {
  }

  /** An empty session id is dropped like a missing one. */
  lemma EmptySessionIsNoSession(
    input: string, kbId: string, modelId: string, regionId: string, rc: Option<RetrievalConfig>)
    ensures RetrieveAndGenerate(input, kbId, Some(""), modelId, regionId, rc)
         == RetrieveAndGenerate(input, kbId, None, modelId, regionId, rc)
  {
  }

  /** `perform_search`: build the filter from the page's choices (the
      episode boxes are module-level globals in the page, parameters here),
      add the result cap, wrap it, and issue the request with the page's
      model and region and no session. Returns the request and the
      configuration that is displayed. */
  function PerformSearch(
    query: string, livestream: bool, blogPosts: bool, minEp: Option<string>, maxEp: Option<string>,
    kbId: string, parse: FloatParser)
    : (r: Result<(Request, RetrievalConfig), FilterError>)
    ensures r.Failure? <==> ConstructVectorSearchConfig(livestream, blogPosts, minEp, maxEp, parse).Failure?
    ensures r.Success? ==>
      var (req, rc) := r.value;
      && rc.vectorSearchConfiguration.numberOfResults == Some(NumberOfResults)
      && rc.vectorSearchConfiguration.filter
         == ConstructVectorSearchConfig(livestream, blogPosts, minEp, maxEp, parse).value.filter
      && req.config.kind == KnowledgeBaseType
      && req.config.knowledgeBaseConfiguration.knowledgeBaseId == kbId
      && req.config.knowledgeBaseConfiguration.modelArn == ModelArn(AppRegionId, AppModelId)
      && req.config.knowledgeBaseConfiguration.retrievalConfiguration.None?
      && req.sessionId.None?
      && req.inputText == query + FormattingSuffix
  {
    var vsc :- ConstructVectorSearchConfig(livestream, blogPosts, minEp, maxEp, parse);
    var rc := WrapRetrievalConfig(vsc);
    var req := RetrieveAndGenerate(query, kbId, None, AppModelId, AppRegionId, Some(rc));
    assert req.inputText == query + FormattingSuffix;
    Success((req, rc))
  }
}
