# Insurance underwriting pipeline: a Dafny model

This project models the parts of an AWS CDK application for auto-insurance underwriting whose
behaviour can be stated and proved. When a driver's-licence image is uploaded, the pipeline runs
in five steps:

- **State machine.** An EventBridge rule on the document bucket starts a Step Functions state
  machine when an object is created. Its definition file is patched with the deployment's
  identifiers by `updateParsedDefinition`.
- **Encoder Lambda.** The state machine's first state, `Base64 Image Encoding`, invokes it. It
  encodes the image in base64 and stores two Bedrock requests: one classifies the document, the
  other extracts the name and licence number. The next states send those requests to the model.
- **Parallel branch 1.** A Lambda builds a made-up DMV record for the driver and writes it into the
  underwriting prompt.
- **Parallel branch 2.** The knowledge base retrieves passages from the underwriting manual, and
  another Lambda joins them into one text.
- **Final step.** A last Lambda writes those rules into the prompt and stores the request for the
  final model call.

The infrastructure code is modelled for what it computes:

- the environment each Lambda gets;
- the model ARNs and S3 keys the stack hands to each part;
- the vector-index settings the knowledge base and its index-creating custom resource share.

Modules, one per source file plus shared ones:

| module | models |
|---|---|
| `Wrappers`, `Strings` | `Option`/`Result`; Python's `split`, `join`, `replace`, `strip` and decimal rendering |
| `Json`, `JsAccess` | parsed JSON values; JavaScript member reads, nested assignment and truthiness on them |
| `S3`, `LambdaEvent`, `InvokeModel` | `s3://` URIs and object writes; Python subscripting of an event; the Anthropic request body |
| `StateMachineConstruct` | `updateParsedDefinition` in `state-machine-construct.ts` |
| `DmvApiCall`, `GenerateFinalPrompt`, `CombineRetrievedInformation`, `Base64EncodeLambda` | the four Python handlers |
| `Base64` | base64 as defined in section 4 of RFC 4648, which `base64.b64encode` produces, with a decoder |
| `LambdaConstruct`, `KnowledgeBaseConstruct`, `AppStack` | the CDK constructs and the stack wiring |

How the model represents the source:

- **Data.** JSON payloads are trees of values (`Json.Json`). Parsed JSON never shares
  sub-objects, so updating the definition in place is modelled as computing the updated tree.
- **Exceptions.** A JavaScript `TypeError` becomes `Failure(TypeError)`. A Python exception caught
  by a handler becomes its 500 response.
- **S3.** Reads are parameters. Writes are returned as a list of `S3.Put` values, in order.
- **Randomness.** The DMV record's random choices are Dafny such-that choices, so every record the
  source can produce is covered.

## Model

| member | source | states |
|---|---|---|
| JsAccess.Member | src/constructs/state-machine-construct.ts:96-114 | Reading a member of `undefined` or `null` throws. An object yields its member, or `undefined` when it has none. Any other value yields `undefined`. |
| JsAccess.AssignSucceedsIff | src/constructs/state-machine-construct.ts:96-114 | A nested assignment `x.a.b.k = v` succeeds exactly when the path `a.b` leads to an object or an array. |
| JsAccess.AssignEstablishes | src/constructs/state-machine-construct.ts:96-114 | After a successful assignment the member holds `v` if the parent is an object. If the parent is an array, the JSON tree is unchanged. |
| JsAccess.AssignFrame | src/constructs/state-machine-construct.ts:96-114 | An assignment leaves every path that diverges from its target unchanged. |
| JsAccess.ApplyIdempotent | src/constructs/state-machine-construct.ts:96-114 | Running a list of assignments to distinct targets a second time changes nothing. |
| JsAccess.ApplyFailsOnMissing | src/constructs/state-machine-construct.ts:96-114 | An assignment whose path runs through a missing member throws, unless an earlier write created that member. |
| S3.Uri | src/constructs/state-machine-construct.ts:98 | `s3://bucket/key` has the scheme, then the bucket and the key, and its length is the sum of theirs plus six. |
| S3.UriInjective | src/constructs/state-machine-construct.ts:98 | Buckets hold no `/`, so two URIs are equal only for the same bucket and key. |
| StateMachineConstruct.UpdateBranch | src/constructs/state-machine-construct.ts:100-109 | The `forEach` callback equals `PatchBranch`. A branch without `States` throws. A truthy extraction state gets the extraction writes; otherwise a truthy retrieval state gets the retrieval writes. Any other branch is unchanged. |
| StateMachineConstruct.UpdateParsedDefinition | src/constructs/state-machine-construct.ts:91-117 | The statement-by-statement update returns exactly `Patched(definition)`. On an error it throws the same `TypeError`, and the branch loop stops at the first branch that throws. |
| StateMachineConstruct.AssignPrelude | src/constructs/state-machine-construct.ts:96-98 | The three assignments before the loop give exactly the result of applying the prelude writes. On success the definition is still an object. |
| StateMachineConstruct.ReadBranches | src/constructs/state-machine-construct.ts:100 | The member-by-member read of `States.Parallel.Branches` equals the path lookup `BranchesOf`. It throws a `TypeError` when a parent is missing or null, or when the value is not an array and so has no `forEach`. Otherwise it returns the array's items. |
| StateMachineConstruct.VisitBranches | src/constructs/state-machine-construct.ts:100-110 | The `forEach` loop gives the branches patched in order, or the first branch's error, exactly as `PatchAll` does. |
| StateMachineConstruct.AssignEpilogue | src/constructs/state-machine-construct.ts:100-114 | Storing the patched branches and then the three assignments after the loop gives exactly the result of those writes in that order. |
| StateMachineConstruct.EpilogueFailsOnMissing | src/constructs/state-machine-construct.ts:112-114 | When the final-prompt state or the final-result state is missing, the writes after the loop throw. |
| StateMachineConstruct.PatchAllPrefixFails | src/constructs/state-machine-construct.ts:100-110 | Once a branch throws, the loop's result is the result of the prefix, so later branches make no difference. |
| StateMachineConstruct.TopWritesDisjoint | src/constructs/state-machine-construct.ts:96-114 | The seven top-level assignments, the `Branches` one included, target seven different places. |
| StateMachineConstruct.PatchedAsOneRun | src/constructs/state-machine-construct.ts:96-114 | A successful update equals the three prelude writes, then `Branches` replaced by the patched branches, then the three epilogue writes. |
| StateMachineConstruct.PreludeKeepsBranches | src/constructs/state-machine-construct.ts:96-100 | The three assignments before the loop leave `States.Parallel.Branches` as it was. |
| StateMachineConstruct.PatchedWritesTopLevel | src/constructs/state-machine-construct.ts:96-114 | After a successful update each of the six top-level identifiers is in place. |
| StateMachineConstruct.PatchedIdentifierExact | src/constructs/state-machine-construct.ts:96-114 | If a top-level assignment's parent is an object in the input, the output holds exactly the prop value at that place. |
| StateMachineConstruct.PatchedBranchesInPlace | src/constructs/state-machine-construct.ts:100-110 | The output's `Branches` are the input's branches, each patched by the callback, in the same order. |
| StateMachineConstruct.PatchedFrame | src/constructs/state-machine-construct.ts:91-117 | Every path that diverges from the seven top-level targets is unchanged. |
| StateMachineConstruct.PatchBranchCases | src/constructs/state-machine-construct.ts:100-109 | The callback takes exactly one of four ways. It throws when `States` cannot be read. It writes the extraction arm when that state is truthy, and otherwise the retrieval arm when that state is truthy. Else it leaves the branch unchanged. |
| StateMachineConstruct.ExtractionWritesDisjoint | src/constructs/state-machine-construct.ts:102-104 | The three extraction-branch assignments have different targets. |
| StateMachineConstruct.RetrievalWritesDisjoint | src/constructs/state-machine-construct.ts:106-108 | The three retrieval-branch assignments have different targets. |
| StateMachineConstruct.PatchBranchWrites | src/constructs/state-machine-construct.ts:101-108 | After a successful callback the three identifiers of the arm taken are in place. |
| StateMachineConstruct.MarkerAfterWrite | src/constructs/state-machine-construct.ts:101-108 | A state the callback wrote into is afterwards a readable object, so a second run takes the same arm. |
| StateMachineConstruct.PatchBranchIdempotent | src/constructs/state-machine-construct.ts:100-109 | Running the callback on its own output changes nothing. |
| StateMachineConstruct.PatchBranchFrame | src/constructs/state-machine-construct.ts:100-109 | The callback leaves every path outside the three targets of its arm unchanged. |
| StateMachineConstruct.PatchAllPointwise | src/constructs/state-machine-construct.ts:100-110 | The loop succeeds exactly when the callback succeeds on every branch. Its result then has the same length, and element `i` is branch `i` patched. |
| StateMachineConstruct.PatchAllIdempotent | src/constructs/state-machine-construct.ts:100-110 | Running the branch loop a second time changes nothing. |
| StateMachineConstruct.PatchedIdempotent | src/constructs/state-machine-construct.ts:91-117 | Running `updateParsedDefinition` on its own output gives the same definition. |
| StateMachineConstruct.PatchedFailsOnMissingState | src/constructs/state-machine-construct.ts:96-114 | A definition missing any of the five top-level states it assigns into makes the update throw. |
| StateMachineConstruct.PatchBranchFailsOnMissingPartner | src/constructs/state-machine-construct.ts:101-108 | The callback throws on a branch that has the extraction state but no DMV state. It also throws on one that takes the retrieval arm without a combine state. |
| DmvApiCall.ViolationsDistinct | assets/lambda/dmv-api-call/dmv_api_call.py:11-22 | The ten violation names are pairwise distinct. |
| DmvApiCall.GenerateRandomDmvRecord | assets/lambda/dmv-api-call/dmv_api_call.py:24-35 | Every record has `license_status` first, one of the two statuses. Then comes `violations`: one to three distinct listed violations, or `["none"]`. |
| DmvApiCall.AppendDmvRecordToPrompt | assets/lambda/dmv-api-call/dmv_api_call.py:37-49 | The loop over the record's entries gives the prompt with every driver placeholder replaced by a block. The block holds the comma-joined `key:value` entries, with lists comma-joined. |
| DmvApiCall.FillDriverSlotOnce | assets/lambda/dmv-api-call/dmv_api_call.py:47 | A template with one placeholder becomes the text before it, the driver block, then the text after it. |
| DmvApiCall.FillDriverSlotAbsent | assets/lambda/dmv-api-call/dmv_api_call.py:47 | A template without the placeholder is returned unchanged. |
| DmvApiCall.NoCommaInViolations | assets/lambda/dmv-api-call/dmv_api_call.py:11-32 | No violation, status or `"none"` contains a comma. |
| DmvApiCall.DriverInfoRoundTrip | assets/lambda/dmv-api-call/dmv_api_call.py:24-46 | The driver line of every record the generator can return reads back as exactly that record. |
| DmvApiCall.ParseFieldsFails | assets/lambda/dmv-api-call/dmv_api_call.py:55-57 | Name and licence parsing fails exactly when the text has fewer than three comma fields or one of the first three has no colon. |
| DmvApiCall.ParseFieldsRoundTrip | assets/lambda/dmv-api-call/dmv_api_call.py:55-57 | The model's answer in the form `Label: first, Label: last, Label: licence` gives back exactly the three values. |
| DmvApiCall.LabelledField | assets/lambda/dmv-api-call/dmv_api_call.py:55-57 | For one `Label: value` field, the stripped text after the colon is the value. |
| DmvApiCall.LambdaHandler | assets/lambda/dmv-api-call/dmv_api_call.py:51-73 | An event whose text cannot be parsed gets 500 and the fixed error message. Any other event gets 200 and the template filled with some record the generator can produce. |
| InvokeModel.UserRequestRoundTrip | assets/lambda/generate-final-prompt/generate_final_prompt.py:18-30 | The request has the Anthropic version, `max_tokens` 20000 and one `user` message, and that message's content is the content given. |
| InvokeModel.UserRequestInjective | assets/lambda/generate-final-prompt/generate_final_prompt.py:18-30 | Two requests are equal exactly when their contents are. |
| GenerateFinalPrompt.ConstructInvokeModelPayload | assets/lambda/generate-final-prompt/generate_final_prompt.py:18-30 | The request is a user request whose content is the prompt text. |
| GenerateFinalPrompt.LambdaHandler | assets/lambda/generate-final-prompt/generate_final_prompt.py:41-70 | An event without a string `body` in element 0 and a `body` in element 1 gets 500 and no upload. Otherwise it gets 200 `SUCCESS` and one upload to the configured bucket and key. The upload carries the template with the rules filled in. |
| GenerateFinalPrompt.FailsWithoutTwoBodies | assets/lambda/generate-final-prompt/generate_final_prompt.py:45-46 | An event that is not a list, is shorter than two, or has no `body` in element 1 gets 500 and no upload. |
| GenerateFinalPrompt.FillsTemplateFromFirstBranch | assets/lambda/generate-final-prompt/generate_final_prompt.py:45-48 | Branch 0 supplies the template and branch 1 the rules. With one placeholder, the stored prompt is the template with the rules block in its place. |
| GenerateFinalPrompt.TemplateWithoutPlaceholder | assets/lambda/generate-final-prompt/generate_final_prompt.py:48 | A template without the rules placeholder is sent unchanged, and the rules are dropped. |
| CombineRetrievedInformation.Texts | assets/lambda/combine-retrieved-information/combine_retrieved_information.py:13-14 | When every result has a text there is one text per result. |
| CombineRetrievedInformation.TextsPrefixFails | assets/lambda/combine-retrieved-information/combine_retrieved_information.py:13-14 | A result without a text makes the whole loop fail, whatever follows it. |
| CombineRetrievedInformation.LambdaHandler | assets/lambda/combine-retrieved-information/combine_retrieved_information.py:7-25 | The loop's answer is 200 with `CombinedBody(event)` when that exists and 500 `FAILURE` otherwise. |
| CombineRetrievedInformation.CombinedLength | assets/lambda/combine-retrieved-information/combine_retrieved_information.py:12-14 | The body is as long as all texts together plus one space per result. |
| CombineRetrievedInformation.CombinedEnding | assets/lambda/combine-retrieved-information/combine_retrieved_information.py:12-14 | The body is empty exactly when there are no results, and otherwise ends in a space. |
| CombineRetrievedInformation.CombinedIsJoin | assets/lambda/combine-retrieved-information/combine_retrieved_information.py:12-14 | The body is the texts joined by single spaces, plus one trailing space. |
| CombineRetrievedInformation.CombinedBodyOfList | assets/lambda/combine-retrieved-information/combine_retrieved_information.py:11-18 | For a list of results the handler succeeds exactly when every result has a string `Content.Text`. It then answers with their combination. |
| CombineRetrievedInformation.TextsSucceed | assets/lambda/combine-retrieved-information/combine_retrieved_information.py:13-14 | The texts exist exactly when each result has one, and text `i` belongs to result `i`. |
| Base64.Encode | assets/lambda/base64-encode/base64_encode.py:75 | The encoding has four characters for every started group of three bytes. |
| Base64.CharValue | assets/lambda/base64-encode/base64_encode.py:75 | Each 6-bit value has an alphabet character, and that character decodes back to it. |
| Base64.EncodeAlphabet | assets/lambda/base64-encode/base64_encode.py:75 | Every character of an encoding is from the alphabet, except `=` in the last two places. |
| Base64.QuantumRoundTrip | assets/lambda/base64-encode/base64_encode.py:75 | A full group of four characters decodes back to its three bytes. |
| Base64.PaddedTwoRoundTrip | assets/lambda/base64-encode/base64_encode.py:75 | A last group of two bytes, three characters and `=`, decodes back to those two bytes. |
| Base64.PaddedOneRoundTrip | assets/lambda/base64-encode/base64_encode.py:75 | A last group of one byte, two characters and `==`, decodes back to that byte. |
| Base64.DecodeEncode | assets/lambda/base64-encode/base64_encode.py:75 | Decoding an encoding gives back the bytes. |
| Base64.EncodeDecode | assets/lambda/base64-encode/base64_encode.py:75 | Whatever a text decodes to encodes back to exactly that text. So the decoder accepts only what `Encode` produces: the alphabet, `=` padding, and zero bits in a padded group. |
| Base64.DecodeInjective | assets/lambda/base64-encode/base64_encode.py:75 | Two texts that decode to the same bytes are the same text. |
| Base64.EncodeInjective | assets/lambda/base64-encode/base64_encode.py:75 | Different byte strings have different encodings. |
| Base64EncodeLambda.ConstructInvokeModelPayload | assets/lambda/base64-encode/base64_encode.py:29-54 | The request is a user request. Its content is a base64 JPEG image block followed by the prompt's text block. |
| Base64EncodeLambda.PayloadRoundTrip | assets/lambda/base64-encode/base64_encode.py:29-54 | A reader of the request finds the image data first and the prompt second, exactly as given. |
| Base64EncodeLambda.PayloadsDifferOnlyInPrompt | assets/lambda/base64-encode/base64_encode.py:83-91 | The two requests built from one image share the image block, and are equal exactly when their prompts are. |
| Base64EncodeLambda.LoadConfig | assets/lambda/base64-encode/base64_encode.py:12-26 | The module loads exactly when the three variables are set, and then uses their values and the two prompt files. |
| Base64EncodeLambda.LambdaHandler | assets/lambda/base64-encode/base64_encode.py:65-116 | Reading, encoding and the two uploads in order give exactly `Handled(event, config, getObject)`. |
| Base64EncodeLambda.HandledWrites | assets/lambda/base64-encode/base64_encode.py:65-116 | The handler answers 200 exactly when the event names a readable object; otherwise it answers 500 `FAILURE` and writes nothing. On success it writes the classification request, then the extraction request, both into the configured bucket under their keys. Each request carries its prompt and the standard base64 text `Encode` of the object's bytes, which decodes back to them. |
| Base64EncodeLambda.UploadsToDistinctObjects | assets/lambda/base64-encode/base64_encode.py:93-103 | With distinct keys the second upload never overwrites the first. |
| LambdaConstruct.EnvironmentFromProps | src/constructs/lambda-construct.ts:31-46 | Each of the four variables is set exactly when its prop is given and not empty, and it then holds that prop. No other variable is set. |
| LambdaConstruct.Configure | src/constructs/lambda-construct.ts:25-46 | Every function gets its given name, Python 3.12, a 30-second timeout and the handler `<functionHandler>.lambda_handler`. Its environment holds only the four known variables. |
| LambdaConstruct.HandlerInjective | src/constructs/lambda-construct.ts:29 | Two functions have the same handler only if they were given the same module name. |
| KnowledgeBaseConstruct.Dimension | src/constructs/bedrock-kb-construct.ts:88 | The index dimension is `1024` exactly when the embedding-model ARN contains `cohere`, and `1536` exactly when it does not. |
| KnowledgeBaseConstruct.IndexMatchesKnowledgeBase | src/constructs/bedrock-kb-construct.ts:56-88 | The custom resource is given exactly six variables. Its index name and its vector, text and metadata fields are the knowledge base's. Its dimension matches the knowledge base's embedding model. |
| KnowledgeBaseConstruct.FieldsDistinct | src/constructs/bedrock-kb-construct.ts:25-28 | The vector, text and metadata fields are three different fields. |
| KnowledgeBaseConstruct.DataPlanePolicy | src/constructs/bedrock-kb-construct.ts:32-40 | The knowledge-base role's policy allows `aoss:APIAccessAll` on exactly the knowledge base's collection. |
| KnowledgeBaseConstruct.ExposedIds | src/constructs/bedrock-kb-construct.ts:106-107 | The construct exposes the knowledge-base and data-source ids of the knowledge base it created. |
| AppStack.ModelArn | src/app-stack.ts:52-57 | A model ARN is the region's `foundation-model` base, a `/`, then the model id. |
| AppStack.ModelArnInjective | src/app-stack.ts:52-57 | In one region, two ARNs are equal exactly when they name the same model. |
| AppStack.SharedHaikuModel | src/app-stack.ts:55-57 | Classification and name/licence extraction use the same model, Claude 3 Haiku, which differs from the Sonnet model used for retrieval and generation. |
| AppStack.LambdaEnvironments | src/app-stack.ts:156-204 | The encoder gets exactly the input bucket and the two keys, and the keys differ. The DMV function gets no variables. |
| AppStack.EncoderEnvironment | src/app-stack.ts:156-194 | The encoder's environment holds the step-function input bucket and the two keys, and nothing else. |
| AppStack.EncoderConfig | src/app-stack.ts:156-194 | With that environment the encoder's load-time reads succeed and return that bucket, those keys and the two prompts. |
| AppStack.WriterAndReaderAgree | src/app-stack.ts:156-217 | With the stack's environment the encoder loads. After a successful run, its two objects are at the URIs that `updateParsedDefinition` writes into the Classification and extraction states. |
| AppStack.EventRuleWatchesDocumentBucket | src/app-stack.ts:72-222 | The event rule's bucket is the document bucket, `underwriting-document-bucket-<prefix>`. |
| AppStack.EmbeddingDimension | src/app-stack.ts:54 | The embedding ARN contains `cohere`, so the vector index is created with 1024 dimensions. |
| AppStack.DataPlaneAccess | src/app-stack.ts:225-232 | The custom-resource role may use `aoss:APIAccessAll` on exactly the collection, as the knowledge-base role may. |

## Left out

- **Effects.** `JSON.stringify`/`JSON.parse`, `json.dumps`, logging and the reading of prompt files
  are not modelled.
  - Payloads stay `Json` values.
  - File contents are parameters: the state machine's `promptText`, the DMV template, the encoder's
    two prompts.
- **Python `str()` of lists and dicts.** The final-prompt handler renders the rules through a
  parameter `containerRepr`.
- **Numbers.** Only integers are modelled; floating-point numbers are not.
- **Randomness.** `random.randint`, `random.sample` and `random.choice` become unconstrained choices
  over the values they can return. Their distribution is not modelled.
- **S3 and the licence id.**
  - An S3 read is a parameter that yields the bytes or fails.
  - A failed upload is swallowed by the handlers, so it is not modelled.
  - `license_id` is parsed but never used by the generator.
- **Runtime and provisioning.** Not modelled:
  - Step Functions execution of the definition;
  - the EventBridge rule's pattern;
  - the S3 bucket and OpenSearch collection constructs, apart from the names and ARNs passed between
    constructs;
  - IAM statements other than the data-plane ones, and `grantInvoke`;
  - the custom resource's index-creation code;
  - `app.ts`.
- **CDK tokens and the stack's props.** Values CDK only knows at deploy time are inputs (`DeployTokens`):
  - the region;
  - the collection ARN and endpoint;
  - the knowledge-base ids;
  - the function ARNs.

  The stack passes `retrieveAndGenerateModelARN`, which `StateMachineProps` does not declare. It
  omits `finalResultModelARN`, `inputS3BucketFinalPromptKey` and the two final-stage function ARNs,
  which the interface requires. Those four are inputs (`UnpassedProps`), and the stack builds no
  final-prompt or combine Lambda.
- **Bucket names.** S3 bucket names are assumed to be the names requested: `S3BucketConstruct` is
  not part of this model.
- **Array targets.** A JavaScript assignment whose target is an array does not fail. It adds a named
  property that JSON serialisation drops, so the model leaves the tree unchanged.
  - StateMachineConstruct.PatchedWritesTopLevel: in that case only "the value is there or the
    parent is an array" is stated.
  - StateMachineConstruct.PatchedIdentifierExact states the exact value, for parents that are
    objects.
- Base64.Decode accepts only canonical padded text, as `Base64.EncodeDecode` proves, and is the
  partner used for the round trip. The looser decoders Python offers, such as `b64decode` without
  `validate=True`, are not modelled.
