/**
 * The upload dialog's controller: its state flags, file selection, the
 * three-step upload, the bounded poll for the converted audio, and the
 * conditions that enable its buttons. Every network exchange is an input:
 * the reply the page would have received, or the error `fetch` would have
 * thrown. The requests the page sends are returned, in order, so that what
 * was and was not sent can be stated.
 */
module UploadDialog {
  import opened Common
  import opened Text
  import opened FileValidator

  /** The component's React state, apart from whether the dialog is open. */
  datatype Dialog = Dialog(
    selectedFile: Option<File>,
    error: Option<string>,
    isUploading: bool,
    isProcessing: bool,
    downloadLink: Option<string>)

  /** The state when the page first renders. */
  const Initial := Dialog(None, None, false, false, None)

  /** A request the page sends, in the order it sends them. */
  datatype Request =
    | RequestSlot(bucket: string, key: string, contentType: string)
    | PutObject(url: string, contentType: string)
    | TriggerConversion(key: string)
    | GetAudio(key: string)

  /** The fields the page reads from a JSON reply, or why the body could not be read. */
  datatype Body = Unreadable(parseError: string) | Json(message: Option<string>, presignedUrl: Option<string>)

  /** What one `fetch` came back with: a reply, or the message of the error it threw. */
  datatype Reply = Thrown(reason: string) | Responded(status: int, body: Body)

  /** `response.ok`. */
  predicate Ok(status: int) {
    200 <= status <= 299
  }

  /** A string field that JavaScript treats as true: present and non-empty. */
  predicate Truthy(field: Option<string>) {
    field.Some? && field.value != ""
  }

  const NoFileMessage := "Please select a file to upload."
  const UploadUrlFailedMessage := "Failed to get upload URL. Please try again."
  const InvalidResponseMessage := "Invalid response from server."
  const PutFailedMessage := "Failed to upload file to S3."
  const TriggerFailedMessage := "Failed to start conversion."
  const FallbackMessage := "Upload failed. Please try again."
  const TimeoutMessage := "Conversion is taking longer than expected. Please check back later."

  /** The attempt limit of the completion poll. */
  const MaxPollAttempts: nat := 40

  // ---------------------------------------------------------------------------
  // Buttons

  /** The "Upload Video" button that opens the dialog. */
  predicate DialogTriggerEnabled(d: Dialog) {
    !d.isProcessing
  }

  /** The dialog's "Upload" button. */
  predicate UploadButtonEnabled(d: Dialog) {
    d.selectedFile.Some? && !d.isUploading
  }

  /** The dialog's "Cancel" button and its file input. */
  predicate CancelEnabled(d: Dialog) {
    !d.isUploading
  }

  /**
   * On first render the dialog can be opened and cancelled but not yet
   * submitted; choosing an acceptable file enables the Upload button.
   */
  lemma InitialButtons(f: File)
    requires Check(f).Accepted?
    ensures DialogTriggerEnabled(Initial) && CancelEnabled(Initial) && !UploadButtonEnabled(Initial)
    ensures UploadButtonEnabled(HandleFileChange(Initial, Some(f)))
    ensures CancelEnabled(HandleFileChange(Initial, Some(f)))
  {
  }

  // ---------------------------------------------------------------------------
  // File selection

  /**
   * `handleFileChange`: `chosen` is the first file of the input, if any. Only
   * a file that passes the validator is kept, and then with no error showing.
   */
  function HandleFileChange(d: Dialog, chosen: Option<File>): (d': Dialog)
    ensures d'.selectedFile.Some? <==>
      chosen.Some? && IsVideoFile(chosen.value) && chosen.value.size <= MaxFileSize
    ensures d'.selectedFile.Some? ==> d'.selectedFile == chosen && d'.error.None?
    ensures chosen.None? ==> d'.error.None?
    ensures chosen.Some? && !IsVideoFile(chosen.value) ==> d'.error == Some(NotVideoMessage)
    ensures chosen.Some? && IsVideoFile(chosen.value) && chosen.value.size > MaxFileSize ==>
      d'.error == Some(TooLargeMessage)
    ensures d'.isUploading == d.isUploading && d'.isProcessing == d.isProcessing
    ensures d'.downloadLink == d.downloadLink
  {
    var cleared := d.(error := None);
    match chosen
    case None => cleared.(selectedFile := None)
    case Some(f) =>
      match Check(f)
      case Rejected(reason) => cleared.(error := Some(reason), selectedFile := None)
      case Accepted => cleared.(selectedFile := Some(f))
  }

  /** The Cancel button: closes the dialog, forgets the file and the error, and leaves any poll running. */
  function Cancel(d: Dialog): (d': Dialog)
    ensures d'.selectedFile.None? && d'.error.None?
    ensures d'.isProcessing == d.isProcessing && d'.isUploading == d.isUploading
    ensures d'.downloadLink == d.downloadLink
  {
    d.(selectedFile := None, error := None)
  }

  // ---------------------------------------------------------------------------
  // Upload

  /** The object key `${timestamp}-${fileName}`, minted once per upload. */
  function ObjectKey(now: nat, name: string): (k: string)
    ensures |k| > |name| && IsDigit(k[0])
    ensures EndsWith(k, name)
    ensures '/' in k <==> '/' in name
  {
    var digits := Decimal(now);
    var k := digits + "-" + name;
    assert k[|k| - |name|..] == name;
    assert forall i :: 0 <= i < |name| ==> k[|digits| + 1 + i] == name[i];
    assert forall i :: 0 <= i < |digits| ==> k[i] == digits[i] && k[i] != '/';
    k
  }

  /** Keys minted at different times, or for different names, differ. */
  lemma ObjectKeyInjective(now1: nat, name1: string, now2: nat, name2: string)
    requires ObjectKey(now1, name1) == ObjectKey(now2, name2)
    ensures now1 == now2 && name1 == name2
  {
    var a, b := Decimal(now1), Decimal(now2);
    var k := ObjectKey(now1, name1);
    assert k == a + "-" + name1 && k == b + "-" + name2;
    // Both renderings end where the first '-' of the key stands.
    assert k[|a|] == '-' && k[|b|] == '-';
    assert forall i :: 0 <= i < |a| ==> k[i] == a[i];
    assert forall i :: 0 <= i < |b| ==> k[i] == b[i];
    assert |a| == |b|;
    assert a == k[..|a|] == b;
    DecimalInjective(now1, now2);
    assert name1 == k[|a| + 1..] == name2;
  }

  /**
   * The content type sent with the slot request and the PUT: the declared
   * type, or else `video/` followed by the text after the name's last dot
   * (the whole name when it has none).
   */
  function ContentType(f: File): (t: string)
    ensures f.mimeType != "" ==> t == f.mimeType
    ensures f.mimeType == "" ==> StartsWith(t, "video/") && '.' !in t[6..]
    ensures f.mimeType == "" && '.' !in f.name ==> t == "video/" + f.name
    ensures f.mimeType == "" && '.' in f.name ==>
      exists stem :: f.name == stem + "." + t[6..]
  {
    if f.mimeType != "" then f.mimeType
    else
      var ext := AfterLast(f.name, '.');
      var t := "video/" + ext;
      assert t[6..] == ext;
      assert '.' in f.name ==> f.name == f.name[..|f.name| - |ext| - 1] + "." + ext;
      t
  }

  /** The slot request succeeded and named an upload URL. */
  predicate SlotGranted(reply: Reply) {
    reply.Responded? && Ok(reply.status) && reply.body.Json? && Truthy(reply.body.presignedUrl)
  }

  /** The PUT or the trigger request succeeded. */
  predicate Accepted(reply: Reply) {
    reply.Responded? && Ok(reply.status)
  }

  /** Step 1: the upload URL, or the message of the error `handleUpload` throws. */
  function SlotStep(reply: Reply): (r: Result<string>)
    ensures r.Success? <==> SlotGranted(reply)
    ensures r.Success? ==> r.value == reply.body.presignedUrl.value
    // A thrown `fetch` fails with its own message.
    ensures reply.Thrown? ==> r == Failure(reply.reason)
    // A refusal shows the server's message when it has one, else the page's own.
    ensures reply.Responded? && !Ok(reply.status) && reply.body.Json? && Truthy(reply.body.message) ==>
      r == Failure(reply.body.message.value)
    ensures reply.Responded? && !Ok(reply.status) && !(reply.body.Json? && Truthy(reply.body.message)) ==>
      r == Failure(UploadUrlFailedMessage)
    ensures reply.Responded? && !Ok(reply.status) ==> r.Failure? && r.message != ""
    // An accepted reply whose body cannot be read fails with the parse error; one without a URL is invalid.
    ensures reply.Responded? && Ok(reply.status) && reply.body.Unreadable? ==>
      r == Failure(reply.body.parseError)
    ensures reply.Responded? && Ok(reply.status) && reply.body.Json? && !Truthy(reply.body.presignedUrl) ==>
      r == Failure(InvalidResponseMessage)
  {
    match reply
    case Thrown(reason) => Failure(reason)
    case Responded(status, body) =>
      if !Ok(status) then
        Failure(if body.Json? && Truthy(body.message) then body.message.value else UploadUrlFailedMessage)
      else
        match body
        case Unreadable(parseError) => Failure(parseError)
        case Json(_, url) => if Truthy(url) then Success(url.value) else Failure(InvalidResponseMessage)
  }

  /** Steps 2 and 3: nothing when the request succeeded, else the message thrown. */
  function StepFailure(reply: Reply, notOk: string): (r: Option<string>)
    ensures r.None? <==> Accepted(reply)
    ensures reply.Responded? && !Ok(reply.status) ==> r == Some(notOk)
    ensures reply.Thrown? ==> r == Some(reply.reason)
  {
    match reply
    case Thrown(reason) => Some(reason)
    case Responded(status, _) => if Ok(status) then None else Some(notOk)
  }

  /** `err.message || "Upload failed. Please try again."`. */
  function Shown(reason: string): (m: string)
    ensures m != ""
    ensures reason != "" ==> m == reason
    ensures reason == "" ==> m == FallbackMessage
  {
    if reason == "" then FallbackMessage else reason
  }

  /** The state once `handleUpload` has passed its guard and before it sends anything. */
  function Begin(d: Dialog): (d': Dialog)
    ensures d'.isUploading && d'.isProcessing && d'.downloadLink.None? && d'.error.None?
    ensures d'.selectedFile == d.selectedFile
    ensures !UploadButtonEnabled(d') && !DialogTriggerEnabled(d') && !CancelEnabled(d')
  {
    d.(isUploading := true, isProcessing := true, downloadLink := None, error := None)
  }

  /** The `catch` and `finally` of `handleUpload`. */
  function Abort(busy: Dialog, reason: string): (d': Dialog)
    ensures d'.error == Some(Shown(reason)) && !d'.isProcessing && !d'.isUploading
    ensures d'.selectedFile == busy.selectedFile && d'.downloadLink == busy.downloadLink
  {
    busy.(error := Some(Shown(reason)), isProcessing := false, isUploading := false)
  }

  /**
   * `handleUpload` up to the start of polling: `begun` is the state in which
   * the requests are sent, `after` the state once the handler returns, and
   * `pollKey` the key to poll for when all three steps succeeded.
   */
  datatype UploadRun = UploadRun(begun: Dialog, requests: seq<Request>, after: Dialog, pollKey: Option<string>)

  function HandleUpload(d: Dialog, bucket: string, now: nat, slot: Reply, put: Reply, trigger: Reply): (r: UploadRun)
    // Without a file nothing is sent and only the error changes.
    ensures d.selectedFile.None? ==>
      r.requests == [] && r.pollKey.None? && r.after == d.(error := Some(NoFileMessage))
    // With a file the flags are raised before the first request, which asks for a slot.
    ensures d.selectedFile.Some? ==>
      && |r.requests| >= 1
      && r.begun == Begin(d)
      && r.requests[0] == RequestSlot(bucket, ObjectKey(now, d.selectedFile.value.name), ContentType(d.selectedFile.value))
    // Fail-fast: each request is sent only when every earlier one succeeded.
    ensures |r.requests| <= 3
    ensures |r.requests| >= 2 <==> d.selectedFile.Some? && SlotGranted(slot)
    ensures |r.requests| >= 3 <==> d.selectedFile.Some? && SlotGranted(slot) && Accepted(put)
    ensures r.pollKey.Some? <==> d.selectedFile.Some? && SlotGranted(slot) && Accepted(put) && Accepted(trigger)
    ensures |r.requests| >= 2 ==> r.requests[1] == PutObject(slot.body.presignedUrl.value, r.requests[0].contentType)
    ensures |r.requests| >= 3 ==> r.requests[2] == TriggerConversion(r.requests[0].key)
    // A failure shows an error, lowers both flags and keeps the chosen file.
    ensures d.selectedFile.Some? && r.pollKey.None? ==>
      && r.after.error.Some? && r.after.error.value != ""
      && !r.after.isProcessing && !r.after.isUploading
      && r.after.selectedFile == d.selectedFile && r.after.downloadLink.None?
    // Which error shows: the failing step's message, or the error its `fetch` threw.
    ensures d.selectedFile.Some? && |r.requests| == 1 && slot.Thrown? ==>
      r.after.error == Some(Shown(slot.reason))
    ensures d.selectedFile.Some? && slot.Responded? && !Ok(slot.status) ==>
      r.after.error == Some(if slot.body.Json? && Truthy(slot.body.message) then slot.body.message.value
                            else UploadUrlFailedMessage)
    ensures d.selectedFile.Some? && slot.Responded? && Ok(slot.status) && slot.body.Unreadable? ==>
      r.after.error == Some(Shown(slot.body.parseError))
    ensures d.selectedFile.Some? && slot.Responded? && Ok(slot.status) && slot.body.Json? && !Truthy(slot.body.presignedUrl) ==>
      r.after.error == Some(InvalidResponseMessage)
    ensures |r.requests| == 2 && put.Responded? ==> r.after.error == Some(PutFailedMessage)
    ensures |r.requests| == 2 && put.Thrown? ==> r.after.error == Some(Shown(put.reason))
    ensures |r.requests| == 3 && r.pollKey.None? && trigger.Responded? ==> r.after.error == Some(TriggerFailedMessage)
    ensures |r.requests| == 3 && r.pollKey.None? && trigger.Thrown? ==> r.after.error == Some(Shown(trigger.reason))
    // Success forgets the file and leaves the page processing, polling for the slot's key.
    ensures r.pollKey.Some? ==>
      && r.pollKey.value == r.requests[0].key
      && r.after.isProcessing && !r.after.isUploading
      && r.after.selectedFile.None? && r.after.error.None? && r.after.downloadLink.None?
  {
    match d.selectedFile
    case None => UploadRun(d, [], d.(error := Some(NoFileMessage)), None)
    case Some(f) =>
      var busy := Begin(d);
      var key := ObjectKey(now, f.name);
      var contentType := ContentType(f);
      var sent := [RequestSlot(bucket, key, contentType)];
      match SlotStep(slot)
      case Failure(reason) => UploadRun(busy, sent, Abort(busy, reason), None)
      case Success(url) =>
        var sent := sent + [PutObject(url, contentType)];
        match StepFailure(put, PutFailedMessage)
        case Some(reason) => UploadRun(busy, sent, Abort(busy, reason), None)
        case None =>
          var sent := sent + [TriggerConversion(key)];
          match StepFailure(trigger, TriggerFailedMessage)
          case Some(reason) => UploadRun(busy, sent, Abort(busy, reason), None)
          case None => UploadRun(busy, sent, busy.(selectedFile := None, isUploading := false), Some(key))
  }

  // ---------------------------------------------------------------------------
  // Completion poll

  /** A poll attempt that finds the audio ready: status 200 with a non-empty URL. */
  predicate Positive(reply: Reply) {
    reply.Responded? && reply.status == 200 && reply.body.Json? && Truthy(reply.body.presignedUrl)
  }

  datatype PollVerdict = StillPolling | Ready(url: string) | TimedOut

  /** `attempts` counts every attempt made, here and before. */
  datatype PollRun = PollRun(attempts: nat, after: Dialog, verdict: PollVerdict)

  /**
   * The interval callback, from the attempt after the `made`-th on; `replies`
   * are the outcomes of the next attempts, in order.
   */
  function PollFrom(d: Dialog, made: nat, replies: seq<Reply>): (r: PollRun)
    requires made < MaxPollAttempts
    ensures made <= r.attempts <= MaxPollAttempts && r.attempts - made <= |replies|
    ensures forall i :: 0 <= i < r.attempts - made - 1 ==> !Positive(replies[i])
    ensures r.verdict.Ready? ==>
      && r.attempts > made && Positive(replies[r.attempts - made - 1])
      && r.verdict.url == replies[r.attempts - made - 1].body.presignedUrl.value
      && r.after == d.(downloadLink := Some(r.verdict.url), isProcessing := false)
    ensures r.verdict.TimedOut? ==>
      && r.attempts == MaxPollAttempts && r.attempts > made && !Positive(replies[r.attempts - made - 1])
      && r.after == d.(isProcessing := false, error := Some(TimeoutMessage))
    ensures r.verdict.StillPolling? ==>
      && r.attempts - made == |replies| && r.attempts < MaxPollAttempts && r.after == d
      && (|replies| > 0 ==> !Positive(replies[|replies| - 1]))
    decreases |replies|
  {
    if |replies| == 0 then PollRun(made, d, StillPolling)
    else
      var attempts := made + 1;
      if Positive(replies[0]) then
        var url := replies[0].body.presignedUrl.value;
        PollRun(attempts, d.(downloadLink := Some(url), isProcessing := false), Ready(url))
      else if attempts >= MaxPollAttempts then
        PollRun(attempts, d.(isProcessing := false, error := Some(TimeoutMessage)), TimedOut)
      else
        var r := PollFrom(d, attempts, replies[1..]);
        assert forall i :: 1 <= i < |replies| ==> replies[i] == replies[1..][i - 1];
        r
  }

  /**
   * The whole poll: attempts stop at the first positive one, or after 40
   * negative ones; a `StillPolling` verdict means the replies ran out first.
   */
  function Poll(d: Dialog, replies: seq<Reply>): (r: PollRun)
    ensures r.attempts <= MaxPollAttempts && r.attempts <= |replies|
    ensures forall i :: 0 <= i < r.attempts - 1 ==> !Positive(replies[i])
    ensures r.verdict.Ready? <==> r.attempts > 0 && Positive(replies[r.attempts - 1])
    ensures r.verdict.Ready? ==>
      && r.verdict.url == replies[r.attempts - 1].body.presignedUrl.value
      && r.after == d.(downloadLink := Some(r.verdict.url), isProcessing := false)
    ensures r.verdict.TimedOut? <==> r.attempts == MaxPollAttempts && !Positive(replies[r.attempts - 1])
    ensures r.verdict.TimedOut? ==> r.after == d.(isProcessing := false, error := Some(TimeoutMessage))
    ensures r.verdict.StillPolling? ==> r.attempts == |replies| < MaxPollAttempts && r.after == d
  {
    PollFrom(d, 0, replies)
  }

  /** 39 negative attempts and then a positive one: ready after exactly 40 attempts. */
  lemma ReadyOnLastAttempt(d: Dialog, replies: seq<Reply>)
    requires |replies| >= MaxPollAttempts
    requires forall i :: 0 <= i < MaxPollAttempts - 1 ==> !Positive(replies[i])
    requires Positive(replies[MaxPollAttempts - 1])
    ensures Poll(d, replies).attempts == MaxPollAttempts
    ensures Poll(d, replies).verdict == Ready(replies[MaxPollAttempts - 1].body.presignedUrl.value)
  {
  }

  /** 40 negative attempts: the poll times out, and no 41st attempt is made. */
  lemma TimesOutAfterForty(d: Dialog, replies: seq<Reply>)
    requires |replies| >= MaxPollAttempts
    requires forall i :: 0 <= i < MaxPollAttempts ==> !Positive(replies[i])
    ensures Poll(d, replies).attempts == MaxPollAttempts
    ensures Poll(d, replies).verdict == TimedOut
    ensures Poll(d, replies).after.error == Some(TimeoutMessage)
  {
  }

  /** The first positive attempt within the limit ends the poll with its URL. */
  lemma FirstPositiveEndsPoll(d: Dialog, replies: seq<Reply>, k: nat)
    requires k < |replies| && k < MaxPollAttempts
    requires Positive(replies[k])
    requires forall i :: 0 <= i < k ==> !Positive(replies[i])
    ensures Poll(d, replies).attempts == k + 1
    ensures Poll(d, replies).verdict == Ready(replies[k].body.presignedUrl.value)
    ensures Poll(d, replies).after.downloadLink == Some(replies[k].body.presignedUrl.value)
    ensures !Poll(d, replies).after.isProcessing
  {
  }

  // ---------------------------------------------------------------------------
  // The whole exchange

  /** Everything the page sends from pressing Upload until the poll ends or the replies run out. */
  datatype SessionRun = SessionRun(requests: seq<Request>, after: Dialog, verdict: Option<PollVerdict>)

  function Session(d: Dialog, bucket: string, now: nat, slot: Reply, put: Reply, trigger: Reply, polls: seq<Reply>): (r: SessionRun)
    // One key for the slot, the trigger and every poll; one content type for the slot and the PUT.
    ensures d.selectedFile.Some? ==>
      forall i :: 0 <= i < |r.requests| && !r.requests[i].PutObject? ==>
        r.requests[i].key == ObjectKey(now, d.selectedFile.value.name)
    ensures d.selectedFile.Some? ==>
      forall i :: 0 <= i < |r.requests| && !r.requests[i].TriggerConversion? && !r.requests[i].GetAudio? ==>
        r.requests[i].contentType == ContentType(d.selectedFile.value)
    // The requests come in the order slot, PUT, trigger, polls, and at most 40 polls are sent.
    ensures |r.requests| <= 3 + MaxPollAttempts
    ensures forall i :: 0 <= i < |r.requests| ==>
      (i == 0 <==> r.requests[i].RequestSlot?) && (i == 1 <==> r.requests[i].PutObject?)
      && (i == 2 <==> r.requests[i].TriggerConversion?) && (i >= 3 <==> r.requests[i].GetAudio?)
    // Polling happens exactly when all three upload steps succeeded.
    ensures r.verdict.Some? <==> d.selectedFile.Some? && SlotGranted(slot) && Accepted(put) && Accepted(trigger)
    ensures r.verdict == Some(StillPolling) ==> r.after.isProcessing && !DialogTriggerEnabled(r.after)
    ensures r.verdict.Some? && !r.verdict.value.StillPolling? ==> DialogTriggerEnabled(r.after)
    ensures r.verdict.None? && d.selectedFile.Some? ==> !r.after.isProcessing && !r.after.isUploading
  {
    var up := HandleUpload(d, bucket, now, slot, put, trigger);
    match up.pollKey
    case None => SessionRun(up.requests, up.after, None)
    case Some(key) =>
      var p := Poll(up.after, polls);
      var polled := seq(p.attempts, _ => GetAudio(key));
      var all := up.requests + polled;
      assert |up.requests| == 3 && |all| == 3 + p.attempts;
      assert up.requests[0].RequestSlot? && up.requests[1].PutObject? && up.requests[2].TriggerConversion?;
      assert forall i :: 3 <= i < |all| ==> all[i] == GetAudio(key);
      assert forall i :: 0 <= i < 3 ==> all[i] == up.requests[i];
      SessionRun(all, p.after, Some(p.verdict))
  }

  /** A refused slot request means the file is never sent and conversion never triggered. */
  lemma NoPutWithoutSlot(d: Dialog, bucket: string, now: nat, slot: Reply, put: Reply, trigger: Reply, polls: seq<Reply>)
    requires !SlotGranted(slot)
    ensures forall q :: q in Session(d, bucket, now, slot, put, trigger, polls).requests ==>
      q.RequestSlot?
    ensures d.selectedFile.Some? ==> Session(d, bucket, now, slot, put, trigger, polls).after.error.Some?
  {
  }
}
