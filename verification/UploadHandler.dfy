/**
 * The upload handler Lambda: one entry point that, depending on the request's
 * `operation`, signs an upload URL, starts the conversion Lambda, or reports
 * whether the converted audio exists. The AWS calls are inputs (what each
 * would return or raise) and the calls made are returned in order.
 */
module UploadHandler {
  import opened Common
  import opened Text

  const KeyPrefix := "user-uploads"
  const DefaultContentType := "video/mp4"
  /** Lifetime in seconds of every URL this handler signs. */
  const UrlLifetime: nat := 3600

  const MissingKeyMessage := "Missing key parameter"
  const NoConvertLambdaMessage := "CONVERT_LAMBDA_NAME not configured"
  const NoOutputBucketMessage := "OUTPUT_BUCKET not configured"
  const ConversionStartedMessage := "Conversion started"

  /** The environment read when the function loads. */
  datatype Config = Config(inputBucket: string, outputBucket: Option<string>, convertLambdaName: Option<string>)

  /** A value Python treats as true: present and non-empty. */
  predicate Given(v: Option<string>) {
    v.Some? && v.value != ""
  }

  /** The request body after JSON decoding, or the text of the error decoding raised. */
  datatype RequestBody =
    | Undecodable(error: string)
    | Fields(key: Option<string>, contentType: Option<string>, operation: Option<string>)

  /** What `lambda_client.invoke` returns or raises. */
  datatype InvokeOutcome = Invoked(statusCode: int) | InvokeRaised(error: string)
  /** What `s3.head_object` finds: the object, a `ClientError` with its code, or another error. */
  datatype HeadOutcome = ObjectExists | ClientError(code: string, error: string) | OtherError(error: string)
  /** What `s3.generate_presigned_url` returns or raises. */
  datatype PresignOutcome = Presigned(url: string) | PresignRaised(error: string)
  /** The outcome each AWS call would have, should the request make it. */
  datatype Aws = Aws(invoke: InvokeOutcome, head: HeadOutcome, presign: PresignOutcome)

  /** An AWS call the handler makes. */
  datatype Call =
    | Invoke(functionName: string, inputFile: string)
    | HeadObject(bucket: string, key: string)
    | PresignGet(bucket: string, key: string, expiresIn: nat)
    | PresignPut(bucket: string, key: string, contentType: string, expiresIn: nat)

  /** The JSON body of a response. */
  datatype Payload =
    | Message(text: string)
    | ConversionStarted(invokeStatus: int)
    | AudioReady(url: string)
    | AudioProcessing
    | UploadUrl(url: string)

  datatype Response = Response(statusCode: int, payload: Payload)

  /** A response together with the AWS calls made to produce it. */
  datatype Handled = Handled(response: Response, calls: seq<Call>)

  datatype Operation = StartConversion | FetchAudio | SignUpload

  /** The three-way dispatch on `operation`; an absent or unknown one signs an upload. */
  function Dispatch(operation: Option<string>): (op: Operation)
    ensures op == StartConversion <==> operation == Some("trigger-conversion")
    ensures op == FetchAudio <==> operation == Some("get-audio")
  {
    if operation == Some("trigger-conversion") then StartConversion
    else if operation == Some("get-audio") then FetchAudio
    else SignUpload
  }

  // ---------------------------------------------------------------------------
  // Object keys

  /** The key handed to the converter: prefixed unless it already starts with `user-uploads`. */
  function FullKey(key: string): (k: string)
    ensures StartsWith(k, KeyPrefix) && EndsWith(k, key)
    ensures StartsWith(key, KeyPrefix) ==> k == key
    ensures |k| <= |key| + |KeyPrefix| + 1
  {
    if !StartsWith(key, KeyPrefix) then KeyPrefix + "/" + key else key
  }

  /** Prefixing is idempotent. */
  lemma FullKeyIdempotent(key: string)
    ensures FullKey(FullKey(key)) == FullKey(key)
  {
  }

  /** The key an upload URL is signed for: always prefixed, even when already prefixed. */
  function SignedKey(key: string): (k: string)
    ensures StartsWith(k, KeyPrefix + "/") && EndsWith(k, key)
    ensures |k| == |key| + |KeyPrefix| + 1
  {
    var k := KeyPrefix + "/" + key;
    assert k[|k| - |key|..] == key;
    k
  }

  /** The signed key is the converter's key exactly when the key does not already start with `user-uploads`. */
  lemma SignedKeyIsFullKey(key: string)
    ensures SignedKey(key) == FullKey(key) <==> !StartsWith(key, KeyPrefix)
  {
  }

  /** Step 1 of the audio key: drop every `user-uploads/` when the key starts with one. */
  function StripUploadPrefix(key: string): (k: string)
    ensures |k| <= |key|
    ensures forall c :: c in k ==> c in key
    ensures !StartsWith(key, KeyPrefix + "/") ==> k == key
    ensures '/' !in key ==> k == key
  {
    if StartsWith(key, KeyPrefix + "/") then
      assert key[|KeyPrefix|] == '/';
      RemoveAll(key, KeyPrefix + "/")
    else key
  }

  /** The key of the audio `get-audio` looks for: prefix stripped, extension replaced by `.mp3`. */
  function Mp3Key(key: string): (k: string)
    ensures EndsWith(k, ".mp3")
    ensures '/' in k ==> '/' in key
    ensures '/' !in key ==> k == BeforeLast(key, '.') + ".mp3"
  {
    var stem := BeforeLast(StripUploadPrefix(key), '.');
    var k := stem + ".mp3";
    assert k[|k| - 4..] == ".mp3";
    assert forall i :: 0 <= i < |stem| ==> stem[i] in StripUploadPrefix(key);
    k
  }

  /**
   * An already prefixed upload key is looked for under its base name, so
   * `user-uploads/1-x.mp4` is looked for as `1-x.mp3`.
   */
  lemma Mp3KeyOfUploadedObject(name: string)
    requires '/' !in name
    ensures Mp3Key(KeyPrefix + "/" + name) == BeforeLast(name, '.') + ".mp3"
  {
  }

  // ---------------------------------------------------------------------------
  // The three operations

  function StartConversionFor(cfg: Config, key: string, invoke: InvokeOutcome): (h: Handled)
    ensures !Given(cfg.convertLambdaName) ==>
      h == Handled(Response(500, Message(NoConvertLambdaMessage)), [])
    ensures Given(cfg.convertLambdaName) ==>
      h.calls == [Invoke(cfg.convertLambdaName.value, FullKey(key))]
    ensures h.response.statusCode == 200 <==> Given(cfg.convertLambdaName) && invoke.Invoked?
    ensures Given(cfg.convertLambdaName) && invoke.Invoked? ==>
      h.response.payload == ConversionStarted(invoke.statusCode)
    // A raised invoke is a server error carrying the exception's text.
    ensures Given(cfg.convertLambdaName) && invoke.InvokeRaised? ==>
      h.response == Response(500, Message(invoke.error))
    ensures h.response.statusCode != 200 ==> h.response.statusCode == 500 && h.response.payload.Message?
  {
    if !Given(cfg.convertLambdaName) then Handled(Response(500, Message(NoConvertLambdaMessage)), [])
    else
      var calls := [Invoke(cfg.convertLambdaName.value, FullKey(key))];
      match invoke
      case Invoked(status) => Handled(Response(200, ConversionStarted(status)), calls)
      case InvokeRaised(error) => Handled(Response(500, Message(error)), calls)
  }

  function FetchAudioFor(cfg: Config, key: string, aws: Aws): (h: Handled)
    ensures !Given(cfg.outputBucket) ==> h == Handled(Response(500, Message(NoOutputBucketMessage)), [])
    ensures Given(cfg.outputBucket) ==>
      |h.calls| >= 1 && h.calls[0] == HeadObject(cfg.outputBucket.value, Mp3Key(key))
    // Present: 200 with the signed download URL.
    ensures h.response.statusCode == 200 <==>
      Given(cfg.outputBucket) && aws.head.ObjectExists? && aws.presign.Presigned?
    ensures h.response.statusCode == 200 ==>
      && h.response.payload == AudioReady(aws.presign.url)
      && h.calls == [HeadObject(cfg.outputBucket.value, Mp3Key(key)), PresignGet(cfg.outputBucket.value, Mp3Key(key), UrlLifetime)]
    // Not found: 202 "processing", with no URL.
    ensures h.response.statusCode == 202 <==>
      Given(cfg.outputBucket) && aws.head.ClientError? && aws.head.code == "404"
    ensures h.response.statusCode == 202 ==> h.response.payload == AudioProcessing
    // Any other lookup or signing error is a server error carrying the exception's text.
    ensures Given(cfg.outputBucket) && aws.head.ClientError? && aws.head.code != "404" ==>
      h == Handled(Response(500, Message(aws.head.error)), [HeadObject(cfg.outputBucket.value, Mp3Key(key))])
    ensures Given(cfg.outputBucket) && aws.head.OtherError? ==>
      h == Handled(Response(500, Message(aws.head.error)), [HeadObject(cfg.outputBucket.value, Mp3Key(key))])
    ensures Given(cfg.outputBucket) && aws.head.ObjectExists? && aws.presign.PresignRaised? ==>
      h.response == Response(500, Message(aws.presign.error))
    // Anything else is a server error.
    ensures h.response.statusCode !in {200, 202} ==> h.response.statusCode == 500 && h.response.payload.Message?
  {
    if !Given(cfg.outputBucket) then Handled(Response(500, Message(NoOutputBucketMessage)), [])
    else
      var bucket := cfg.outputBucket.value;
      var mp3 := Mp3Key(key);
      var head := HeadObject(bucket, mp3);
      match aws.head
      case ObjectExists =>
        var calls := [head, PresignGet(bucket, mp3, UrlLifetime)];
        (match aws.presign
         case Presigned(url) => Handled(Response(200, AudioReady(url)), calls)
         case PresignRaised(error) => Handled(Response(500, Message(error)), calls))
      case ClientError(code, error) =>
        if code == "404" then Handled(Response(202, AudioProcessing), [head])
        else Handled(Response(500, Message(error)), [head])
      case OtherError(error) => Handled(Response(500, Message(error)), [head])
  }

  function SignUploadFor(cfg: Config, key: string, contentType: Option<string>, presign: PresignOutcome): (h: Handled)
    ensures |h.calls| == 1 && h.calls[0].PresignPut?
    ensures h.calls[0].bucket == cfg.inputBucket && h.calls[0].key == SignedKey(key)
    ensures h.calls[0].contentType == if contentType.Some? then contentType.value else DefaultContentType
    ensures h.response.statusCode == 200 <==> presign.Presigned?
    ensures presign.Presigned? ==> h.response.payload == UploadUrl(presign.url)
    ensures presign.PresignRaised? ==> h.response == Response(500, Message(presign.error))
  {
    var ct := match contentType case Some(t) => t case None => DefaultContentType;
    var calls := [PresignPut(cfg.inputBucket, SignedKey(key), ct, UrlLifetime)];
    match presign
    case Presigned(url) => Handled(Response(200, UploadUrl(url)), calls)
    case PresignRaised(error) => Handled(Response(500, Message(error)), calls)
  }

  /** `lambda_handler`. */
  function Handle(cfg: Config, body: RequestBody, aws: Aws): (h: Handled)
    // A body that cannot be decoded is a server error carrying the error's text.
    ensures body.Undecodable? ==> h == Handled(Response(500, Message(body.error)), [])
    // A missing or empty key is refused before any AWS call, whatever the operation.
    ensures body.Fields? && !Given(body.key) ==> h == Handled(Response(400, Message(MissingKeyMessage)), [])
    ensures h.response.statusCode == 400 <==> body.Fields? && !Given(body.key)
    ensures h.response.statusCode in {200, 202, 400, 500}
    // Each operation makes only its own kind of call.
    ensures forall c :: c in h.calls ==>
      && body.Fields? && Given(body.key)
      && (c.Invoke? <==> Dispatch(body.operation) == StartConversion)
      && (c.HeadObject? || c.PresignGet? ==> Dispatch(body.operation) == FetchAudio)
      && (c.PresignPut? <==> Dispatch(body.operation) == SignUpload)
    // A keyed request gets the answer of the operation it dispatches to.
    ensures body.Fields? && Given(body.key) && Dispatch(body.operation) == StartConversion ==>
      h == StartConversionFor(cfg, body.key.value, aws.invoke)
    ensures body.Fields? && Given(body.key) && Dispatch(body.operation) == FetchAudio ==>
      h == FetchAudioFor(cfg, body.key.value, aws)
    ensures body.Fields? && Given(body.key) && Dispatch(body.operation) == SignUpload ==>
      h == SignUploadFor(cfg, body.key.value, body.contentType, aws.presign)
    // Only a lookup of the audio can answer 202.
    ensures h.response.statusCode == 202 ==> body.Fields? && Dispatch(body.operation) == FetchAudio
  {
    match body
    case Undecodable(error) => Handled(Response(500, Message(error)), [])
    case Fields(key, contentType, operation) =>
      if !Given(key) then Handled(Response(400, Message(MissingKeyMessage)), [])
      else
        match Dispatch(operation)
        case StartConversion => StartConversionFor(cfg, key.value, aws.invoke)
        case FetchAudio => FetchAudioFor(cfg, key.value, aws)
        case SignUpload => SignUploadFor(cfg, key.value, contentType, aws.presign)
  }
}
