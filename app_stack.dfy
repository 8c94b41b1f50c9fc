/**
 * The application stack: the model ARNs and S3 keys it computes once, and how it hands them, with
 * the bucket names, to the encoder Lambda, the knowledge base, the state machine and the event
 * rule. Everything is computed from the deployment region and the random name prefix; values that
 * exist only once resources are deployed are inputs.
 */
module AppStack {
  import opened Wrappers
  import opened Strings
  import S3
  import LambdaConstruct
  import KnowledgeBaseConstruct
  import StateMachineConstruct
  import Base64EncodeLambda
  import opened Json
  import Base64

  // The `ModelType` values the stack uses.
  const ANTHROPIC_CLAUDE_V3_HAIKU := "anthropic.claude-3-haiku-20240307-v1:0"
  const ANTHROPIC_CLAUDE_V3_SONNET := "anthropic.claude-3-sonnet-20240229-v1:0"
  const COHERE_EMBED_ENGLISH_V3 := "cohere.embed-english-v3"

  const CLASSIFICATION_KEY := "classification_input.json"
  const EXTRACT_NAME_AND_LICENSE_KEY := "extract_name_and_license_input.json"

  function BaseBedrockModelArn(region: string): string
  {
    "arn:aws:bedrock:" + region + "::foundation-model"
  }

  /** `${baseBedrockModelArn}/${modelId}`: the ARN of a foundation model in the region. */
  function ModelArn(region: string, modelId: string): (arn: string)
    ensures |arn| == |BaseBedrockModelArn(region)| + 1 + |modelId|
    ensures arn[..|BaseBedrockModelArn(region)|] == BaseBedrockModelArn(region)
    ensures arn[|BaseBedrockModelArn(region)|] == '/'
    ensures arn[|BaseBedrockModelArn(region)| + 1..] == modelId
  {
    BaseBedrockModelArn(region) + "/" + modelId
  }

  /** In one region, two ARNs are equal exactly when they name the same model. */
  lemma ModelArnInjective(region: string, a: string, b: string)
    ensures ModelArn(region, a) == ModelArn(region, b) <==> a == b
  {
    var n := |BaseBedrockModelArn(region)| + 1;
    if ModelArn(region, a) == ModelArn(region, b) {
      assert a == ModelArn(region, a)[n..] == ModelArn(region, b)[n..] == b;
    }
  }

  /** `${name}-${randomPrefix}`. */
  function Prefixed(name: string, randomPrefix: nat): string
  {
    name + "-" + Decimal(randomPrefix)
  }

  /** The props of the encoder function: its bucket and the two keys it writes. */
  function EncoderProps(randomPrefix: nat): LambdaConstruct.LambdaProps
  {
    LambdaConstruct.LambdaProps(
      Prefixed("Base64EncodeLambda", randomPrefix), "base64_encode",
      Some(Prefixed("step-function-input-bucket", randomPrefix)), Some(CLASSIFICATION_KEY),
      Some(EXTRACT_NAME_AND_LICENSE_KEY), None)
  }

  /** The encoder's environment holds its three given props and nothing else. */
  lemma EncoderEnvironment(randomPrefix: nat)
    ensures LambdaConstruct.Environment(EncoderProps(randomPrefix)) == map[
      LambdaConstruct.INPUT_S3_BUCKET_NAME := Prefixed("step-function-input-bucket", randomPrefix),
      LambdaConstruct.INPUT_S3_BUCKET_CLASSIFICATION_KEY := CLASSIFICATION_KEY,
      LambdaConstruct.INPUT_S3_BUCKET_EXTRACT_NAME_AND_LICENSE_KEY := EXTRACT_NAME_AND_LICENSE_KEY]
  {
    assert LambdaConstruct.Supplied(EncoderProps(randomPrefix).inputS3BucketName) by {
      assert |Prefixed("step-function-input-bucket", randomPrefix)| > 0;
    }
  }

  /** Values that exist only once resources are deployed (CloudFormation tokens). */
  datatype DeployTokens = DeployTokens(
    region: string,
    collectionArn: string,
    collectionEndpoint: string,
    manualBucketArn: string,
    knowledgeBaseIds: KnowledgeBaseConstruct.AssignedIds,
    base64EncodeLambdaArn: string,
    dmvAPICallLambdaArn: string)

  /** The state-machine props this revision of the stack does not pass. */
  datatype UnpassedProps = UnpassedProps(
    finalResultModelARN: string,
    inputS3BucketFinalPromptKey: string,
    combineRetrievedInformationLambdaArn: string,
    generateFinalPromptLambdaArn: string)

  datatype App = App(
    embeddingsModelArn: string,
    classificationModelARN: string,
    retrieveAndGenerateModelARN: string,
    nameAndLicenceExtractionModelARN: string,
    inputS3BucketClassificationKey: string,
    inputS3BucketExtractNameAndLicenseKey: string,
    underwritingManualBucketName: string,
    underwritingDocumentBucketName: string,
    stepFunctionInputBucketName: string,
    knowledgeBase: KnowledgeBaseConstruct.KnowledgeBase,
    base64EncodeLambda: LambdaConstruct.FunctionConfig,
    dmvAPICallLambda: LambdaConstruct.FunctionConfig,
    stateMachineProps: StateMachineConstruct.StateMachineProps,
    eventBucketName: string,
    customResourcePolicy: KnowledgeBaseConstruct.PolicyStatement)

  /** The `AppStack` constructor, for a given prefix and deployment. */
  function Build(randomPrefix: nat, tokens: DeployTokens, unpassed: UnpassedProps): App
  {
    var region := tokens.region;
    var embeddingsModelArn := ModelArn(region, COHERE_EMBED_ENGLISH_V3);
    var classificationModelARN := ModelArn(region, ANTHROPIC_CLAUDE_V3_HAIKU);
    var retrieveAndGenerateModelARN := ModelArn(region, ANTHROPIC_CLAUDE_V3_SONNET);
    var nameAndLicenceExtractionModelARN := ModelArn(region, ANTHROPIC_CLAUDE_V3_HAIKU);
    var stepFunctionInputBucketName := Prefixed("step-function-input-bucket", randomPrefix);
    App(
      embeddingsModelArn,
      classificationModelARN,
      retrieveAndGenerateModelARN,
      nameAndLicenceExtractionModelARN,
      CLASSIFICATION_KEY,
      EXTRACT_NAME_AND_LICENSE_KEY,
      Prefixed("underwriting-manual-bucket", randomPrefix),
      Prefixed("underwriting-document-bucket", randomPrefix),
      stepFunctionInputBucketName,
      KnowledgeBaseConstruct.Build(
        KnowledgeBaseConstruct.KnowledgeBaseProps(
          embeddingsModelArn, tokens.collectionArn, tokens.collectionEndpoint, tokens.manualBucketArn),
        tokens.knowledgeBaseIds),
      LambdaConstruct.Configure(EncoderProps(randomPrefix)),
      LambdaConstruct.Configure(LambdaConstruct.LambdaProps(
        Prefixed("DmvAPICallLambda", randomPrefix), "dmv_api_call", None, None, None, None)),
      StateMachineConstruct.StateMachineProps(
        tokens.knowledgeBaseIds.knowledgeBaseId,
        classificationModelARN,
        nameAndLicenceExtractionModelARN,
        unpassed.finalResultModelARN,
        stepFunctionInputBucketName,
        CLASSIFICATION_KEY,
        EXTRACT_NAME_AND_LICENSE_KEY,
        unpassed.inputS3BucketFinalPromptKey,
        tokens.base64EncodeLambdaArn,
        tokens.dmvAPICallLambdaArn,
        unpassed.combineRetrievedInformationLambdaArn,
        unpassed.generateFinalPromptLambdaArn,
        region),
      Prefixed("underwriting-document-bucket", randomPrefix),
      KnowledgeBaseConstruct.PolicyStatement([KnowledgeBaseConstruct.DATA_PLANE_ACTION], [tokens.collectionArn]))
  }

  /**
   * Classification and name/licence extraction use the same model (Claude 3 Haiku), which is not
   * the model used for retrieval and generation (Claude 3 Sonnet).
   */
  lemma SharedHaikuModel(randomPrefix: nat, tokens: DeployTokens, unpassed: UnpassedProps)
    ensures var app := Build(randomPrefix, tokens, unpassed);
      && app.classificationModelARN == app.nameAndLicenceExtractionModelARN
         == ModelArn(tokens.region, ANTHROPIC_CLAUDE_V3_HAIKU)
      && app.classificationModelARN != app.retrieveAndGenerateModelARN
  {
    ModelArnInjective(tokens.region, ANTHROPIC_CLAUDE_V3_HAIKU, ANTHROPIC_CLAUDE_V3_SONNET);
  }

  /**
   * The encoder's function gets exactly the bucket and the two keys it reads at load time, and
   * the two keys differ; the DMV function gets no environment at all.
   */
  lemma LambdaEnvironments(randomPrefix: nat, tokens: DeployTokens, unpassed: UnpassedProps)
    ensures var app := Build(randomPrefix, tokens, unpassed);
      var env := app.base64EncodeLambda.environment;
      && env == map[
           LambdaConstruct.INPUT_S3_BUCKET_NAME := app.stepFunctionInputBucketName,
           LambdaConstruct.INPUT_S3_BUCKET_CLASSIFICATION_KEY := CLASSIFICATION_KEY,
           LambdaConstruct.INPUT_S3_BUCKET_EXTRACT_NAME_AND_LICENSE_KEY := EXTRACT_NAME_AND_LICENSE_KEY]
      && env[LambdaConstruct.INPUT_S3_BUCKET_CLASSIFICATION_KEY]
           != env[LambdaConstruct.INPUT_S3_BUCKET_EXTRACT_NAME_AND_LICENSE_KEY]
      && app.dmvAPICallLambda.environment == map[]
  {
    EncoderEnvironment(randomPrefix);
  }

  /**
   * The encoder writes where the state machine reads: with the environment the stack gives it,
   * the encoder loads, and after a successful run its first object is the URI the state machine
   * writes into the Classification state and its second the one written into the extraction state.
   */
  lemma WriterAndReaderAgree(randomPrefix: nat, tokens: DeployTokens, unpassed: UnpassedProps,
                             classificationPrompt: string, extractNameAndLicensePrompt: string,
                             event: Json, getObject: (Json, Json) -> Option<seq<Base64.byte>>)
    ensures var app := Build(randomPrefix, tokens, unpassed);
      var config := Base64EncodeLambda.LoadConfig(app.base64EncodeLambda.environment, classificationPrompt,
                                                  extractNameAndLicensePrompt);
      && config.Some?
      && var (response, puts) := Base64EncodeLambda.Handled(event, config.value, getObject);
         var sm := app.stateMachineProps;
         response.statusCode == 200 ==>
           && StateMachineConstruct.PreludeWrites(sm)[2].value == Str(S3.Uri(puts[0].bucket, puts[0].key))
           && StateMachineConstruct.ExtractionWrites(sm)[0].value == Str(S3.Uri(puts[1].bucket, puts[1].key))
  {
    var config := EncoderConfig(randomPrefix, classificationPrompt, extractNameAndLicensePrompt);
    Base64EncodeLambda.HandledWrites(event, config, getObject);
  }

  /** The settings the encoder loads from the environment the stack gives it. */
  lemma EncoderConfig(randomPrefix: nat, classificationPrompt: string, extractNameAndLicensePrompt: string)
    returns (config: Base64EncodeLambda.Config)
    ensures config == Base64EncodeLambda.Config(
      Prefixed("step-function-input-bucket", randomPrefix), CLASSIFICATION_KEY, EXTRACT_NAME_AND_LICENSE_KEY,
      classificationPrompt, extractNameAndLicensePrompt)
    ensures Base64EncodeLambda.LoadConfig(LambdaConstruct.Configure(EncoderProps(randomPrefix)).environment,
                                          classificationPrompt, extractNameAndLicensePrompt) == Some(config)
  {
    EncoderEnvironment(randomPrefix);
    config := Base64EncodeLambda.Config(
      Prefixed("step-function-input-bucket", randomPrefix), CLASSIFICATION_KEY, EXTRACT_NAME_AND_LICENSE_KEY,
      classificationPrompt, extractNameAndLicensePrompt);
  }

  /**
   * The event rule watches the document bucket: both are named
   * `underwriting-document-bucket-<prefix>`.
   */
  lemma EventRuleWatchesDocumentBucket(randomPrefix: nat, tokens: DeployTokens, unpassed: UnpassedProps)
    ensures var app := Build(randomPrefix, tokens, unpassed);
      && app.eventBucketName == app.underwritingDocumentBucketName
      && app.eventBucketName[..|"underwriting-document-bucket-"|] == "underwriting-document-bucket-"
      && app.eventBucketName[|"underwriting-document-bucket-"|..] == Decimal(randomPrefix)
  {
  }

  /** The Cohere embedding model is recognised, so the vector index is created with 1024 dimensions. */
  lemma EmbeddingDimension(randomPrefix: nat, tokens: DeployTokens, unpassed: UnpassedProps)
    ensures var app := Build(randomPrefix, tokens, unpassed);
      && Contains(app.embeddingsModelArn, "cohere")
      && app.knowledgeBase.customResourceEnvironment["DIMENSION"] == "1024"
  {
    var arn := ModelArn(tokens.region, COHERE_EMBED_ENGLISH_V3);
    var n := |BaseBedrockModelArn(tokens.region)| + 1;
    assert arn[n..] == COHERE_EMBED_ENGLISH_V3;
    assert arn[n..n + 6] == COHERE_EMBED_ENGLISH_V3[..6] == "cohere";
    assert OccursAt(arn, "cohere", n);
  }

  /**
   * Both the knowledge-base role and the custom-resource role may use the collection's data
   * plane, and only that.
   */
  lemma DataPlaneAccess(randomPrefix: nat, tokens: DeployTokens, unpassed: UnpassedProps)
    ensures var app := Build(randomPrefix, tokens, unpassed);
      && app.customResourcePolicy == KnowledgeBaseConstruct.PolicyStatement(["aoss:APIAccessAll"], [tokens.collectionArn])
      && app.knowledgeBase.dataPlanePolicy == app.customResourcePolicy
  {
  }
}
