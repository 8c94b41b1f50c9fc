/**
 * The Lambda construct: one Python function per stage, whose environment carries only the
 * S3 locations the caller supplied.
 */
module LambdaConstruct {
  import opened Wrappers

  /** The `LambdaProps` the construct reads; the role and the code asset are left out. */
  datatype LambdaProps = LambdaProps(
    functionName: string,
    functionHandler: string,
    inputS3BucketName: Option<string>,
    inputS3BucketClassificationKey: Option<string>,
    inputS3BucketExtractNameAndLicenseKey: Option<string>,
    inputS3BucketFinalPromptKey: Option<string>)

  const PYTHON_3_12 := "python3.12"
  const TIMEOUT_SECONDS := 30
  const HANDLER_SUFFIX := ".lambda_handler"

  const INPUT_S3_BUCKET_NAME := "INPUT_S3_BUCKET_NAME"
  const INPUT_S3_BUCKET_CLASSIFICATION_KEY := "INPUT_S3_BUCKET_CLASSIFICATION_KEY"
  const INPUT_S3_BUCKET_EXTRACT_NAME_AND_LICENSE_KEY := "INPUT_S3_BUCKET_EXTRACT_NAME_AND_LICENSE_KEY"
  const INPUT_S3_BUCKET_FINAL_PROMPT_KEY := "INPUT_S3_BUCKET_FINAL_PROMPT_KEY"

  /** The four variables, in the order of the props that feed them. */
  const ENV_NAMES: seq<string> := [
    INPUT_S3_BUCKET_NAME, INPUT_S3_BUCKET_CLASSIFICATION_KEY,
    INPUT_S3_BUCKET_EXTRACT_NAME_AND_LICENSE_KEY, INPUT_S3_BUCKET_FINAL_PROMPT_KEY]

  /** The optional props, in the order of `ENV_NAMES`. */
  function OptionalProps(props: LambdaProps): (r: seq<Option<string>>)
    ensures |r| == |ENV_NAMES|
  {
    [props.inputS3BucketName, props.inputS3BucketClassificationKey,
     props.inputS3BucketExtractNameAndLicenseKey, props.inputS3BucketFinalPromptKey]
  }

  /** Whether an optional string prop passes the `value ? ... : ...` test: defined and not empty. */
  predicate Supplied(v: Option<string>)
  {
    v.Some? && v.value != ""
  }

  /** `...(value ? { NAME: value } : {})`. */
  function Spread(name: string, value: Option<string>): map<string, string>
  {
    if Supplied(value) then map[name := value.value] else map[]
  }

  /** The `environment` object: the four conditional spreads, one after the other. */
  function Environment(props: LambdaProps): map<string, string>
  {
    Spread(INPUT_S3_BUCKET_NAME, props.inputS3BucketName)
    + Spread(INPUT_S3_BUCKET_CLASSIFICATION_KEY, props.inputS3BucketClassificationKey)
    + Spread(INPUT_S3_BUCKET_EXTRACT_NAME_AND_LICENSE_KEY, props.inputS3BucketExtractNameAndLicenseKey)
    + Spread(INPUT_S3_BUCKET_FINAL_PROMPT_KEY, props.inputS3BucketFinalPromptKey)
  }

  /**
   * A variable is set exactly when its prop is given and not empty, it then holds that prop, and
   * no other variable is ever set.
   */
  lemma EnvironmentFromProps(props: LambdaProps)
    ensures forall i | 0 <= i < |ENV_NAMES| :: ENV_NAMES[i] in Environment(props) <==> Supplied(OptionalProps(props)[i])
    ensures forall i | 0 <= i < |ENV_NAMES| && ENV_NAMES[i] in Environment(props) ::
              Environment(props)[ENV_NAMES[i]] == OptionalProps(props)[i].value
    ensures forall name | name in Environment(props) :: name in ENV_NAMES
  {
    var env := Environment(props);
    forall i | 0 <= i < |ENV_NAMES|
      ensures ENV_NAMES[i] in env <==> Supplied(OptionalProps(props)[i])
      ensures ENV_NAMES[i] in env ==> env[ENV_NAMES[i]] == OptionalProps(props)[i].value
    {
      assert forall j | 0 <= j < |ENV_NAMES| && j != i :: ENV_NAMES[j] != ENV_NAMES[i];
    }
  }

  /** The settings of the `aws_lambda.Function` the construct creates. */
  datatype FunctionConfig = FunctionConfig(
    functionName: string,
    runtime: string,
    handler: string,
    timeoutSeconds: nat,
    environment: map<string, string>)

  /** The construct's function definition, built from its props. */
  function Configure(props: LambdaProps): (config: FunctionConfig)
    ensures config.functionName == props.functionName
    ensures config.runtime == PYTHON_3_12 && config.timeoutSeconds == TIMEOUT_SECONDS
    ensures |config.handler| == |props.functionHandler| + |HANDLER_SUFFIX|
    ensures config.handler[..|props.functionHandler|] == props.functionHandler
    ensures config.handler[|props.functionHandler|..] == HANDLER_SUFFIX
    ensures config.environment.Keys <= set name | name in ENV_NAMES
  {
    EnvironmentFromProps(props);
    FunctionConfig(props.functionName, PYTHON_3_12, props.functionHandler + HANDLER_SUFFIX,
                   TIMEOUT_SECONDS, Environment(props))
  }

  /** Two functions run the same Python module only if their handlers were built from the same name. */
  lemma HandlerInjective(p: LambdaProps, q: LambdaProps)
    requires Configure(p).handler == Configure(q).handler
    ensures p.functionHandler == q.functionHandler
  {
    assert |p.functionHandler| == |q.functionHandler|;
  }
}
