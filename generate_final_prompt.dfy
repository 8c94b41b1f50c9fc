/**
 * The final-prompt Lambda: it receives the outputs of the two Parallel branches, writes the
 * retrieved underwriting rules into the validation prompt and stores the model request for the
 * final Bedrock call in S3.
 */
module GenerateFinalPrompt {
  import opened Wrappers
  import opened Json
  import opened Strings
  import opened LambdaEvent
  import opened InvokeModel
  import S3

  const RULES_SLOT := "\n<rules>\n</rules>"
  const SUCCESS_BODY := "SUCCESS"
  const FAILURE_BODY := "FAILURE"

  function RulesBlock(rules: string): string
  {
    "\n<rules>\n" + rules + "\n</rules>"
  }

  /** `construct_invoke_model_payload_and_upload(prompt)`: the request, before `json.dumps`. */
  function ConstructInvokeModelPayload(prompt: string): (payload: Json)
    ensures IsUserRequest(payload) && MessageContent(payload) == Some(Str(prompt))
  {
    UserRequestRoundTrip(Str(prompt));
    UserRequest(Str(prompt))
  }

  /**
   * Python's `str(value)` in the f-string. A string is itself and the scalars have fixed
   * spellings; the rendering of lists and dicts (Python's `repr`) is passed in.
   */
  function PyStr(value: Json, containerRepr: Json -> string): string
  {
    match value
    case Str(s) => s
    case Null => "None"
    case Bool(b) => if b then "True" else "False"
    case Num(n) => if n < 0 then "-" + Decimal(-n) else Decimal(n)
    case _ => containerRepr(value)
  }

  /**
   * `prompt = event[0]['body']` and `underwriting_rules = event[1]['body']`; the prompt must be a
   * string for `replace` to exist. The two branch outputs arrive in branch order.
   */
  function PromptAndRules(event: Json): Option<(string, Json)>
  {
    var prompt :- Key(Index(Some(event), 0), "body");
    var rules :- Key(Index(Some(event), 1), "body");
    var template :- StrValue(Some(prompt));
    Some((template, rules))
  }

  /** The final prompt: the template with every rules placeholder filled. */
  function FinalPrompt(template: string, rules: Json, containerRepr: Json -> string): string
  {
    Replace(template, RULES_SLOT, RulesBlock(PyStr(rules, containerRepr)))
  }

  /** The response and the uploads the handler attempts. */
  datatype Outcome = Outcome(response: Response, puts: seq<S3.Put>)

  /**
   * `lambda_handler(event, context)`, with the environment's bucket and key passed in. An upload
   * error is caught inside `upload_to_s3_bucket`, so once the upload is attempted the answer is
   * `SUCCESS` whatever S3 does.
   */
  function LambdaHandler(event: Json, bucketName: string, finalPromptKey: string, containerRepr: Json -> string)
    : (out: Outcome)
    ensures PromptAndRules(event).None? ==> out == Outcome(Response(500, FAILURE_BODY), [])
    ensures PromptAndRules(event).Some? ==>
      var (template, rules) := PromptAndRules(event).value;
      && out.response == Response(200, SUCCESS_BODY)
      && |out.puts| == 1
      && out.puts[0].bucket == bucketName && out.puts[0].key == finalPromptKey
      && MessageContent(out.puts[0].body) == Some(Str(FinalPrompt(template, rules, containerRepr)))
  {
    match PromptAndRules(event)
    case None => Outcome(Response(500, FAILURE_BODY), [])
    case Some((prompt, underwritingRules)) =>
      var updatedPrompt := Replace(prompt, RULES_SLOT, RulesBlock(PyStr(underwritingRules, containerRepr)));
      var payload := ConstructInvokeModelPayload(updatedPrompt);
      Outcome(Response(200, SUCCESS_BODY), [S3.Put(bucketName, finalPromptKey, payload)])
  }

  /** An event that is not a list of at least two elements each with a `body` gets 500 and no upload. */
  lemma FailsWithoutTwoBodies(event: Json, bucketName: string, finalPromptKey: string, containerRepr: Json -> string)
    ensures !event.Arr? || |event.items| < 2 ==>
      LambdaHandler(event, bucketName, finalPromptKey, containerRepr) == Outcome(Response(500, FAILURE_BODY), [])
    ensures event.Arr? && |event.items| >= 2 && (!event.items[1].Obj? || "body" !in event.items[1].fields) ==>
      LambdaHandler(event, bucketName, finalPromptKey, containerRepr) == Outcome(Response(500, FAILURE_BODY), [])
  {
  }

  /**
   * The first branch's body is the template and the second's the rules: for a template with one
   * placeholder the stored prompt is the template with the rules in its place.
   */
  lemma FillsTemplateFromFirstBranch(pre: string, post: string, rules: string, bucketName: string, finalPromptKey: string,
                                     containerRepr: Json -> string)
    requires Split(pre + RULES_SLOT + post, RULES_SLOT) == [pre, post]
    ensures
      var event := Arr([Obj(map["body" := Str(pre + RULES_SLOT + post)]), Obj(map["body" := Str(rules)])]);
      var out := LambdaHandler(event, bucketName, finalPromptKey, containerRepr);
      && out.response == Response(200, SUCCESS_BODY)
      && MessageContent(out.puts[0].body) == Some(Str(pre + RulesBlock(rules) + post))
  {
    ReplaceIsJoinOfSplit(pre + RULES_SLOT + post, RULES_SLOT, RulesBlock(rules));
  }

  /** A template without the placeholder is sent on unchanged: the rules are dropped. */
  lemma TemplateWithoutPlaceholder(template: string, rules: Json, containerRepr: Json -> string)
    requires !Contains(template, RULES_SLOT)
    ensures FinalPrompt(template, rules, containerRepr) == template
  {
    ReplaceAbsent(template, RULES_SLOT, RulesBlock(PyStr(rules, containerRepr)));
  }
}
