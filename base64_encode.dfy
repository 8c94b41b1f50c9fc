/**
 * The Lambda started by the upload event of a driver's-licence image: it reads the image,
 * encodes it in base64 and stores two model requests built around it, one for classifying the
 * document and one for extracting the name and licence number.
 */
module Base64EncodeLambda {
  import opened Wrappers
  import opened Json
  import opened LambdaEvent
  import opened InvokeModel
  import opened Base64
  import S3

  const SUCCESS_BODY := "SUCCESS"
  const FAILURE_BODY := "FAILURE"
  const MEDIA_TYPE := "image/jpeg"

  /** `{"source": {"data": ..., "media_type": "image/jpeg", "type": "base64"}, "type": "image"}`. */
  function ImageBlock(base64Data: string): Json
  {
    Obj(map[
      "source" := Obj(map["data" := Str(base64Data), "media_type" := Str(MEDIA_TYPE), "type" := Str("base64")]),
      "type" := Str("image")])
  }

  /** `{"text": ..., "type": "text"}`. */
  function TextBlock(prompt: string): Json
  {
    Obj(map["text" := Str(prompt), "type" := Str("text")])
  }

  /** `construct_invoke_model_payload_and_upload(prompt, base64_data)`, before `json.dumps`. */
  function ConstructInvokeModelPayload(prompt: string, base64Data: string): (payload: Json)
    ensures IsUserRequest(payload)
    ensures MessageContent(payload) == Some(Arr([ImageBlock(base64Data), TextBlock(prompt)]))
  {
    UserRequestRoundTrip(Arr([ImageBlock(base64Data), TextBlock(prompt)]));
    UserRequest(Arr([ImageBlock(base64Data), TextBlock(prompt)]))
  }

  /** What a reader finds in such a request: the image data of the first block, the text of the second. */
  function ImageAndPrompt(payload: Json): Option<(string, string)>
  {
    var content :- MessageContent(payload);
    if !content.Arr? || |content.items| != 2 || !content.items[0].Obj? || !content.items[1].Obj? then None
    else
      var image := content.items[0].fields;
      var text := content.items[1].fields;
      if && "type" in image && image["type"] == Str("image") && "source" in image
         && Lookup(image["source"], ["data"]).Some? && Lookup(image["source"], ["data"]).value.Str?
         && Lookup(image["source"], ["media_type"]) == Some(Str(MEDIA_TYPE))
         && "type" in text && text["type"] == Str("text") && "text" in text && text["text"].Str?
      then Some((Lookup(image["source"], ["data"]).value.s, text["text"].s))
      else None
  }

  /** The image comes first and the prompt second, and both can be read back. */
  lemma PayloadRoundTrip(prompt: string, base64Data: string)
    ensures ImageAndPrompt(ConstructInvokeModelPayload(prompt, base64Data)) == Some((base64Data, prompt))
  {
    var content := Arr([ImageBlock(base64Data), TextBlock(prompt)]);
    assert content.items == [ImageBlock(base64Data), TextBlock(prompt)];
  }

  /**
   * The two requests built from one image are the same request exactly when their prompts are:
   * they share the image block and differ only in the text.
   */
  lemma PayloadsDifferOnlyInPrompt(prompt1: string, prompt2: string, base64Data: string)
    ensures (ConstructInvokeModelPayload(prompt1, base64Data) == ConstructInvokeModelPayload(prompt2, base64Data))
            <==> prompt1 == prompt2
    ensures MessageContent(ConstructInvokeModelPayload(prompt1, base64Data)).value.items[0]
              == MessageContent(ConstructInvokeModelPayload(prompt2, base64Data)).value.items[0]
  {
    PayloadRoundTrip(prompt1, base64Data);
    PayloadRoundTrip(prompt2, base64Data);
  }

  /** `event['bucket']['name']` and `event['object']['key']`, whatever JSON values they are. */
  function Location(event: Json): Option<(Json, Json)>
  {
    var bucket :- Key(Key(Some(event), "bucket"), "name");
    var key :- Key(Key(Some(event), "object"), "key");
    Some((bucket, key))
  }

  /** The environment and the two prompt files the handler reads when it is loaded. */
  datatype Config = Config(
    inputBucketName: string,
    classificationKey: string,
    extractNameAndLicenseKey: string,
    classificationPrompt: string,
    extractNameAndLicensePrompt: string)

  const INPUT_S3_BUCKET_NAME := "INPUT_S3_BUCKET_NAME"
  const INPUT_S3_BUCKET_CLASSIFICATION_KEY := "INPUT_S3_BUCKET_CLASSIFICATION_KEY"
  const INPUT_S3_BUCKET_EXTRACT_NAME_AND_LICENSE_KEY := "INPUT_S3_BUCKET_EXTRACT_NAME_AND_LICENSE_KEY"

  /**
   * The module's load-time settings: three `os.environ[...]` reads, each of which raises when its
   * variable is missing (`None`: the function cannot start), and the two prompt files.
   */
  function LoadConfig(environ: map<string, string>, classificationPrompt: string, extractNameAndLicensePrompt: string)
    : (config: Option<Config>)
    ensures config.Some? <==>
      INPUT_S3_BUCKET_NAME in environ && INPUT_S3_BUCKET_CLASSIFICATION_KEY in environ
      && INPUT_S3_BUCKET_EXTRACT_NAME_AND_LICENSE_KEY in environ
    ensures config.Some? ==>
      && config.value.inputBucketName == environ[INPUT_S3_BUCKET_NAME]
      && config.value.classificationKey == environ[INPUT_S3_BUCKET_CLASSIFICATION_KEY]
      && config.value.extractNameAndLicenseKey == environ[INPUT_S3_BUCKET_EXTRACT_NAME_AND_LICENSE_KEY]
      && config.value.classificationPrompt == classificationPrompt
      && config.value.extractNameAndLicensePrompt == extractNameAndLicensePrompt
  {
    if INPUT_S3_BUCKET_NAME !in environ then None
    else if INPUT_S3_BUCKET_CLASSIFICATION_KEY !in environ then None
    else if INPUT_S3_BUCKET_EXTRACT_NAME_AND_LICENSE_KEY !in environ then None
    else Some(Config(environ[INPUT_S3_BUCKET_NAME], environ[INPUT_S3_BUCKET_CLASSIFICATION_KEY],
                     environ[INPUT_S3_BUCKET_EXTRACT_NAME_AND_LICENSE_KEY],
                     classificationPrompt, extractNameAndLicensePrompt))
  }

  /**
   * What the handler answers and which objects it writes, in order. `getObject` stands for
   * `s3_client.get_object(...)['Body'].read()`: the object's bytes, or `None` when S3 raises.
   */
  function Handled(event: Json, config: Config, getObject: (Json, Json) -> Option<seq<byte>>)
    : (Response, seq<S3.Put>)
  {
    match Location(event)
    case None => (Response(500, FAILURE_BODY), [])
    case Some((bucket, key)) =>
      match getObject(bucket, key)
      case None => (Response(500, FAILURE_BODY), [])
      case Some(objectData) =>
        var base64Data := Encode(objectData);
        (Response(200, SUCCESS_BODY),
         [S3.Put(config.inputBucketName, config.classificationKey,
                 ConstructInvokeModelPayload(config.classificationPrompt, base64Data)),
          S3.Put(config.inputBucketName, config.extractNameAndLicenseKey,
                 ConstructInvokeModelPayload(config.extractNameAndLicensePrompt, base64Data))])
  }

  /**
   * `lambda_handler(event, context)`: read the object, encode it, build both requests, then
   * upload them one after the other. An upload error is caught inside `upload_to_s3_bucket`, so
   * it cannot change the answer.
   */
  method LambdaHandler(event: Json, config: Config, getObject: (Json, Json) -> Option<seq<byte>>)
    returns (response: Response, puts: seq<S3.Put>)
    ensures (response, puts) == Handled(event, config, getObject)
  {
    puts := [];
    var location := Location(event);
    if location.None? {
      return Response(500, FAILURE_BODY), puts;
    }
    var (bucket, key) := location.value;
    var objectData := getObject(bucket, key);
    if objectData.None? {
      return Response(500, FAILURE_BODY), puts;
    }
    var base64Data := Encode(objectData.value);
    var classificationPrompt := ConstructInvokeModelPayload(config.classificationPrompt, base64Data);
    var extractNameAndLicensePrompt := ConstructInvokeModelPayload(config.extractNameAndLicensePrompt, base64Data);
    puts := puts + [S3.Put(config.inputBucketName, config.classificationKey, classificationPrompt)];
    puts := puts + [S3.Put(config.inputBucketName, config.extractNameAndLicenseKey, extractNameAndLicensePrompt)];
    response := Response(200, SUCCESS_BODY);
    assert puts == [S3.Put(config.inputBucketName, config.classificationKey, classificationPrompt),
                    S3.Put(config.inputBucketName, config.extractNameAndLicenseKey, extractNameAndLicensePrompt)];
    assert location.value == (bucket, key);
  }

  /**
   * The handler succeeds exactly when the event names an object that can be read; it then writes
   * the classification request and then the extraction request, both into the configured bucket,
   * and each carries the standard base64 text of the object's bytes, which decodes back to them.
   */
  lemma HandledWrites(event: Json, config: Config, getObject: (Json, Json) -> Option<seq<byte>>)
    ensures Handled(event, config, getObject).0.statusCode == 200 <==>
      Location(event).Some? && getObject(Location(event).value.0, Location(event).value.1).Some?
    ensures Handled(event, config, getObject).0.statusCode != 200 ==>
      Handled(event, config, getObject) == (Response(500, FAILURE_BODY), [])
    ensures Handled(event, config, getObject).0.statusCode == 200 ==>
      var puts := Handled(event, config, getObject).1;
      var objectData := getObject(Location(event).value.0, Location(event).value.1).value;
      && Handled(event, config, getObject).0 == Response(200, SUCCESS_BODY)
      && |puts| == 2
      && puts[0].bucket == config.inputBucketName && puts[0].key == config.classificationKey
      && puts[1].bucket == config.inputBucketName && puts[1].key == config.extractNameAndLicenseKey
      && (forall i | 0 <= i < 2 ::
            && ImageAndPrompt(puts[i].body).Some?
            && ImageAndPrompt(puts[i].body).value.0 == Encode(objectData)
            && Decode(ImageAndPrompt(puts[i].body).value.0) == Some(objectData))
      && ImageAndPrompt(puts[0].body).value.1 == config.classificationPrompt
      && ImageAndPrompt(puts[1].body).value.1 == config.extractNameAndLicensePrompt
  {
    if Handled(event, config, getObject).0.statusCode == 200 {
      var objectData := getObject(Location(event).value.0, Location(event).value.1).value;
      PayloadRoundTrip(config.classificationPrompt, Encode(objectData));
      PayloadRoundTrip(config.extractNameAndLicensePrompt, Encode(objectData));
      DecodeEncode(objectData);
    }
  }

  /** With distinct keys the second upload never overwrites the first. */
  lemma UploadsToDistinctObjects(event: Json, config: Config, getObject: (Json, Json) -> Option<seq<byte>>)
    requires config.classificationKey != config.extractNameAndLicenseKey
    requires Handled(event, config, getObject).0.statusCode == 200
    ensures var puts := Handled(event, config, getObject).1;
      (puts[0].bucket, puts[0].key) != (puts[1].bucket, puts[1].key)
  {
    HandledWrites(event, config, getObject);
  }
}
