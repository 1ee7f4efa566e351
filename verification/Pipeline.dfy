/**
 * How the page, the upload handler and the converter fit together: the
 * handler body each page request carries, the reply each handler response
 * becomes, and the agreement of the object keys the three parts compute.
 * The API gateway is taken to pass status codes and JSON bodies through
 * unchanged. Keys are compared, not objects: they name the same objects
 * only when the handler and the converter are deployed with the same input
 * and output buckets.
 */
module Pipeline {
  import opened Common
  import opened Text
  import D = UploadDialog
  import H = UploadHandler
  import Converter

  /** The decoded body of a page request to the handler (the PUT goes straight to S3). */
  function BodyOf(q: D.Request): (b: H.RequestBody)
    requires !q.PutObject?
    ensures b.Fields? && b.key == Some(q.key)
    ensures q.RequestSlot? ==> H.Dispatch(b.operation) == H.SignUpload && b.contentType == Some(q.contentType)
    ensures q.TriggerConversion? ==> H.Dispatch(b.operation) == H.StartConversion
    ensures q.GetAudio? ==> H.Dispatch(b.operation) == H.FetchAudio
  {
    match q
    case RequestSlot(_, key, contentType) => H.Fields(Some(key), Some(contentType), None)
    case TriggerConversion(key) => H.Fields(Some(key), None, Some("trigger-conversion"))
    case GetAudio(key) => H.Fields(Some(key), None, Some("get-audio"))
  }

  /** The reply the page receives for a handler response. */
  function AsReply(resp: H.Response): (r: D.Reply)
    ensures r.Responded? && r.status == resp.statusCode && r.body.Json?
    ensures r.body.presignedUrl.Some? <==> resp.payload.AudioReady? || resp.payload.UploadUrl?
    ensures r.body.presignedUrl.Some? ==> r.body.presignedUrl.value == resp.payload.url
    ensures r.body.message.Some? <==> resp.payload.Message? || resp.payload.ConversionStarted?
  {
    var body := match resp.payload
      case Message(text) => D.Json(Some(text), None)
      case ConversionStarted(_) => D.Json(Some(H.ConversionStartedMessage), None)
      case AudioReady(url) => D.Json(None, Some(url))
      case AudioProcessing => D.Json(None, None)
      case UploadUrl(url) => D.Json(None, Some(url));
    D.Responded(resp.statusCode, body)
  }

  /**
   * The page's readiness test accepts a `get-audio` answer exactly when the
   * audio object exists and a non-empty download URL was signed for it.
   */
  lemma PollPositiveExactlyWhenReady(cfg: H.Config, key: string, aws: H.Aws)
    ensures D.Positive(AsReply(H.Handle(cfg, BodyOf(D.GetAudio(key)), aws).response)) <==>
      && key != "" && H.Given(cfg.outputBucket)
      && aws.head.ObjectExists? && aws.presign.Presigned? && aws.presign.url != ""
  {
  }

  /** The page sees the trigger accepted exactly when the converter was invoked. */
  lemma TriggerAcceptedExactlyWhenInvoked(cfg: H.Config, key: string, aws: H.Aws)
    ensures D.Accepted(AsReply(H.Handle(cfg, BodyOf(D.TriggerConversion(key)), aws).response)) <==>
      key != "" && H.Given(cfg.convertLambdaName) && aws.invoke.Invoked?
  {
  }

  /** The page gets an upload URL exactly when the handler signed a non-empty one. */
  lemma SlotGrantedExactlyWhenSigned(cfg: H.Config, bucket: string, key: string, contentType: string, aws: H.Aws)
    ensures D.SlotGranted(AsReply(H.Handle(cfg, BodyOf(D.RequestSlot(bucket, key, contentType)), aws).response)) <==>
      key != "" && aws.presign.Presigned? && aws.presign.url != ""
  {
  }

  /**
   * For a key free of `/` that does not start with `user-uploads`, the
   * key `get-audio` looks for is the one the converter writes.
   */
  lemma PolledKeyIsConverterOutput(key: string)
    requires '/' !in key && !StartsWith(key, H.KeyPrefix)
    ensures Converter.OutKey(H.FullKey(key)) == H.Mp3Key(key)
  {
    assert H.FullKey(key) == H.KeyPrefix + "/" + key;
    assert '.' !in H.KeyPrefix;
    Converter.OutKeyUnderDirectory(H.KeyPrefix, key);
  }

  /**
   * For a key `dir/name` whose directory has no dot and which does not start
   * with `user-uploads`, the two disagree: for
   * `a/b.mp4` the converter writes `b.mp3` but the poll looks for `a/b.mp3`.
   */
  lemma PolledKeyNeedsFlatKey(dir: string, name: string)
    requires '.' !in dir && '/' !in name && !StartsWith(dir + "/" + name, H.KeyPrefix)
    ensures Converter.OutKey(H.FullKey(dir + "/" + name)) == BeforeLast(name, '.') + ".mp3"
    ensures H.Mp3Key(dir + "/" + name) == dir + "/" + BeforeLast(name, '.') + ".mp3"
    ensures Converter.OutKey(H.FullKey(dir + "/" + name)) != H.Mp3Key(dir + "/" + name)
  {
    var key := dir + "/" + name;
    var outer := H.KeyPrefix + "/" + dir;
    assert H.FullKey(key) == outer + "/" + name;
    assert '.' !in H.KeyPrefix + "/";
    assert outer == (H.KeyPrefix + "/") + dir;
    Converter.OutKeyUnderDirectory(outer, name);
    assert (H.KeyPrefix + "/")[..|H.KeyPrefix|] == H.KeyPrefix;
    assert !StartsWith(key, H.KeyPrefix + "/");
    assert '.' !in dir + "/";
    BeforeLastOfJoin(dir + "/", '.', name);
    assert dir + "/" + name == (dir + "/") + name;
  }

  /**
   * A `/` alone does not make them disagree: when the last dot sits in a
   * directory name, both cut there, and `a.b/c` is written and looked for
   * as `a.mp3`.
   */
  lemma DottedDirectoryKeysAgree(stem: string, ext: string, name: string)
    requires '/' !in stem && '.' !in ext && '.' !in name
    requires !StartsWith(stem + "." + ext + "/" + name, H.KeyPrefix)
    ensures Converter.OutKey(H.FullKey(stem + "." + ext + "/" + name)) == stem + ".mp3"
    ensures H.Mp3Key(stem + "." + ext + "/" + name) == stem + ".mp3"
  {
    DottedDirectoryWritten(stem, ext, name);
    DottedDirectoryPolled(stem, ext, name);
  }

  lemma DottedDirectoryWritten(stem: string, ext: string, name: string)
    requires '/' !in stem && '.' !in ext && '.' !in name
    requires !StartsWith(stem + "." + ext + "/" + name, H.KeyPrefix)
    ensures Converter.OutKey(H.FullKey(stem + "." + ext + "/" + name)) == stem + ".mp3"
  {
    var rest := ext + "/" + name;
    var outer := H.KeyPrefix + ['/'] + stem;
    assert H.FullKey(stem + "." + ext + "/" + name) == outer + ['.'] + rest;
    assert '.' !in rest;
    BeforeLastOfJoinAt(outer, '.', rest);
    var audio := stem + ".mp3";
    assert outer + ".mp3" == H.KeyPrefix + ['/'] + audio;
    assert '/' !in audio;
    AfterLastOfJoin(H.KeyPrefix, '/', audio);
  }

  lemma DottedDirectoryPolled(stem: string, ext: string, name: string)
    requires '.' !in ext && '.' !in name
    requires !StartsWith(stem + "." + ext + "/" + name, H.KeyPrefix)
    ensures H.Mp3Key(stem + "." + ext + "/" + name) == stem + ".mp3"
  {
    var key := stem + "." + ext + "/" + name;
    assert (H.KeyPrefix + "/")[..|H.KeyPrefix|] == H.KeyPrefix;
    assert !StartsWith(key, H.KeyPrefix + "/");
    assert key == stem + ['.'] + (ext + "/" + name);
    assert '.' !in ext + "/" + name;
    BeforeLastOfJoinAt(stem, '.', ext + "/" + name);
  }

  /** The upload URL is signed for the key the converter is then asked to read. */
  lemma UploadedObjectIsConverted(cfg: H.Config, bucket: string, key: string, contentType: string,
                                  signing: H.Aws, starting: H.Aws)
    requires key != "" && !StartsWith(key, H.KeyPrefix) && H.Given(cfg.convertLambdaName)
    ensures var signed := H.Handle(cfg, BodyOf(D.RequestSlot(bucket, key, contentType)), signing).calls;
      var started := H.Handle(cfg, BodyOf(D.TriggerConversion(key)), starting).calls;
      && |signed| == 1 && |started| == 1
      && signed[0].key == started[0].inputFile
  {
  }

  /** The poll looks for the key the converter writes. */
  lemma PolledObjectIsWritten(cfg: H.Config, key: string, starting: H.Aws, looking: H.Aws)
    requires key != "" && '/' !in key && !StartsWith(key, H.KeyPrefix)
    requires H.Given(cfg.convertLambdaName) && H.Given(cfg.outputBucket)
    ensures var started := H.Handle(cfg, BodyOf(D.TriggerConversion(key)), starting).calls;
      var looked := H.Handle(cfg, BodyOf(D.GetAudio(key)), looking).calls;
      && |started| == 1 && |looked| >= 1
      && Converter.OutKey(started[0].inputFile) == looked[0].key
  {
    PolledKeyIsConverterOutput(key);
    assert H.Handle(cfg, BodyOf(D.TriggerConversion(key)), starting)
      == H.StartConversionFor(cfg, key, starting.invoke);
    assert H.Handle(cfg, BodyOf(D.GetAudio(key)), looking)
      == H.FetchAudioFor(cfg, key, looking);
  }

  /**
   * The page's keys meet both conditions whenever the file name is free of
   * `/`: they start with a digit, so never with `user-uploads`.
   */
  lemma PageKeyIsFlatAndUnprefixed(now: nat, name: string)
    requires '/' !in name
    ensures var key := D.ObjectKey(now, name);
      key != "" && '/' !in key && !StartsWith(key, H.KeyPrefix)
  {
  }

  /**
   * For a key minted by the page from a file name free of `/`: the key
   * signed for upload is the one the converter is asked to read, and the
   * key the poll looks for is the one the converter writes.
   */
  lemma PageKeysReachTheSameObjects(cfg: H.Config, bucket: string, now: nat, name: string, contentType: string,
                                    signing: H.Aws, starting: H.Aws, looking: H.Aws)
    requires '/' !in name
    requires H.Given(cfg.convertLambdaName) && H.Given(cfg.outputBucket)
    ensures var key := D.ObjectKey(now, name);
      var signed := H.Handle(cfg, BodyOf(D.RequestSlot(bucket, key, contentType)), signing).calls;
      var started := H.Handle(cfg, BodyOf(D.TriggerConversion(key)), starting).calls;
      var looked := H.Handle(cfg, BodyOf(D.GetAudio(key)), looking).calls;
      && |signed| == 1 && |started| == 1 && |looked| >= 1
      && signed[0].key == started[0].inputFile
      && Converter.OutKey(started[0].inputFile) == looked[0].key
  {
    var key := D.ObjectKey(now, name);
    PageKeyIsFlatAndUnprefixed(now, name);
    UploadedObjectIsConverted(cfg, bucket, key, contentType, signing, starting);
    PolledObjectIsWritten(cfg, key, starting, looking);
  }
}
