# video2audio upload, conversion and polling — a Dafny model

This project models the logic of the video2audio application.

- **Browser dialog.** The user picks a video. The page checks the file, asks the upload handler for a presigned PUT URL, and uploads the file. It then asks the handler to start the conversion Lambda. After that it polls the handler every few seconds, at most 40 times, until the converted MP3 can be downloaded.
- **Upload handler Lambda.** One entry point, dispatched on `operation`:
  - sign an upload URL (the default);
  - start the conversion (`trigger-conversion`);
  - report whether the audio exists (`get-audio`).
- **Conversion Lambda.** Only its choice of output key is modelled.

Network, S3 and Lambda calls are inputs. Each one is an outcome datatype: what the call would return, or the error it would raise. Every model function returns the requests or AWS calls it makes, in order, so properties such as "no PUT after a failed slot request" can be stated.

Modules:

| module | file | models |
|---|---|---|
| `Common` | Common.dfy | `Option` and `Result` |
| `Text` | Text.dfy | the string built-ins used: `startsWith`/`endsWith`, `toLowerCase`, `rsplit('.', 1)[0]`, `split(c).pop()`/`split(c)[-1]`, `replace(p, '')`, decimal rendering |
| `FileValidator` | FileValidator.dfy | `isVideoFile`, `VIDEO_EXTENSIONS`, `MAX_FILE_SIZE`, the two checks of `handleFileChange` |
| `UploadDialog` | UploadDialog.dfy | the dialog's state flags, `handleFileChange`, `handleUpload`, the inner `checkIfReady` with the 40-attempt poll, the Cancel button, the button enable conditions |
| `UploadHandler` | UploadHandler.dfy | `lambda_handler` of the upload handler: key guard, dispatch, `full_key`, `mp3_key`, status codes |
| `Converter` | Converter.dfy | `out_key` of the conversion Lambda |
| `Pipeline` | Pipeline.dfy | how the three parts fit: request bodies, replies, and agreement of object keys |

The API gateway is assumed to pass the handler's status code and JSON body to the page unchanged. `Pipeline.AsReply` is that assumption.

## Model

| member | source | states |
|---|---|---|
| `Text.Lower` | frontend/src/pages/VideoUploadDialog.jsx:42 | lower-casing keeps the length and maps each character independently (ASCII letters only) |
| `Text.BeforeLast` | lambda/upload-handler/lambda_function.py:78 | `rsplit('.', 1)[0]` is the whole string when there is no dot; otherwise it is the proper prefix ending just before the last dot, and no dot follows |
| `Text.AfterLast` | frontend/src/pages/VideoUploadDialog.jsx:118 | `split(c).pop()` never contains `c`; it is the whole string when there is no `c`; otherwise it is the suffix right after the last `c` |
| `Text.RemoveAll` | lambda/upload-handler/lambda_function.py:75 | `replace(p, '')` never lengthens the string and adds no characters; with no occurrence it changes nothing |
| `Text.RemoveAllAbsent` | lambda/upload-handler/lambda_function.py:75 | removing a pattern that holds a character the string lacks leaves the string unchanged |
| `Text.Decimal` | frontend/src/pages/VideoUploadDialog.jsx:119-120 | the `${timestamp}` rendering of a number is a non-empty string of decimal digits; `Text.ParseDecimalOfDecimal` reads it back as the same number |
| `Text.ParseDecimalOfDecimal` | frontend/src/pages/VideoUploadDialog.jsx:119-120 | reading the rendered timestamp back as a decimal number gives the timestamp |
| `Text.DecimalInjective` | frontend/src/pages/VideoUploadDialog.jsx:119-120 | different timestamps render as different decimal strings (through the round trip `ParseDecimal(Decimal(n)) == n`) |
| `FileValidator.AnyEndsWith` | frontend/src/pages/VideoUploadDialog.jsx:43 | `VIDEO_EXTENSIONS.some(...)` holds iff some listed extension ends the name |
| `FileValidator.IsVideoFile` | frontend/src/pages/VideoUploadDialog.jsx:37-44 | a file is a video iff its type is non-empty and starts with `video/`, or its lower-cased name ends with one of the ten listed extensions |
| `FileValidator.ExtensionMatchIgnoresCase` | frontend/src/pages/VideoUploadDialog.jsx:42-43 | a name and its lower-cased form are judged alike, so the extension match ignores case |
| `FileValidator.Check` | frontend/src/pages/VideoUploadDialog.jsx:88-100 | a file is accepted iff (its type is non-empty and starts with `video/`, or its lower-cased name ends with one of the ten extensions) and its size is at most 1 GiB; a non-video is always told "Please select a video file.", even when oversized; a video over the limit gets the size message |
| `FileValidator.UpperCaseExtensionAccepted` | frontend/src/pages/VideoUploadDialog.jsx:37-44 | `MOVIE.MKV` with no type is accepted |
| `FileValidator.TextFileRejected` | frontend/src/pages/VideoUploadDialog.jsx:37-44 | `clip.txt` with no type is rejected as not a video |
| `FileValidator.SizeBoundary` | frontend/src/pages/VideoUploadDialog.jsx:95-100 | for a video, 1073741824 bytes is accepted and 1073741825 is rejected with the size message |
| `FileValidator.TypeCheckedBeforeSize` | frontend/src/pages/VideoUploadDialog.jsx:88-100 | a file that is not a video is rejected with the type message whatever its size |
| `UploadDialog.DialogTriggerEnabled` | frontend/src/pages/VideoUploadDialog.jsx:246 | the "Upload Video" button is disabled exactly while `isProcessing`; `UploadDialog.Begin`, `UploadDialog.Session` and `UploadDialog.InitialButtons` state when that holds |
| `UploadDialog.UploadButtonEnabled` | frontend/src/pages/VideoUploadDialog.jsx:307 | the dialog's Upload button needs a chosen file and no upload in flight; `UploadDialog.InitialButtons` and `UploadDialog.Begin` state when that holds |
| `UploadDialog.CancelEnabled` | frontend/src/pages/VideoUploadDialog.jsx:301 | Cancel (and, at line 274, the file input) is disabled exactly while `isUploading`; `UploadDialog.Begin` disables them |
| `UploadDialog.InitialButtons` | frontend/src/pages/VideoUploadDialog.jsx:47-52 | on first render the dialog can be opened and cancelled but not submitted; choosing an acceptable file enables Upload |
| `UploadDialog.HandleFileChange` | frontend/src/pages/VideoUploadDialog.jsx:79-103 | a file is kept iff it passes both checks, and then with no error; an empty selection and every rejection leave no file; each rejection shows its own message; the upload, processing and link flags do not change |
| `UploadDialog.Cancel` | frontend/src/pages/VideoUploadDialog.jsx:294-304 | Cancel forgets the file and the error and leaves `isProcessing`, `isUploading` and the link alone, so it does not stop a running poll |
| `UploadDialog.ObjectKey` | frontend/src/pages/VideoUploadDialog.jsx:117-120 | the key starts with a digit, ends with the file name, and contains `/` iff the name does |
| `UploadDialog.ObjectKeyInjective` | frontend/src/pages/VideoUploadDialog.jsx:119-120 | equal keys come from equal timestamps and equal names, so two uploads at different milliseconds get different keys |
| `UploadDialog.ContentType` | frontend/src/pages/VideoUploadDialog.jsx:118-131 | the declared type when non-empty; otherwise `video/` plus a dot-free tail, which is the whole name when it has no dot and else the text after the name's last dot |
| `UploadDialog.SlotStep` | frontend/src/pages/VideoUploadDialog.jsx:135-146 | the slot step yields a URL iff the reply is ok and carries a non-empty `presignedUrl`; a thrown `fetch` fails with its own message; a non-ok reply fails with the server's `message` when that is non-empty, else with "Failed to get upload URL. Please try again."; an ok reply whose body cannot be read fails with the parse error; an ok reply without a URL fails with "Invalid response from server." |
| `UploadDialog.StepFailure` | frontend/src/pages/VideoUploadDialog.jsx:156-174 | the PUT and the trigger pass iff the reply is ok; a non-ok reply fails with that step's own message; a thrown `fetch` fails with its own message |
| `UploadDialog.Shown` | frontend/src/pages/VideoUploadDialog.jsx:226-227 | the error shown is never empty and is the thrown message when that message is non-empty, else "Upload failed. Please try again." |
| `UploadDialog.Begin` | frontend/src/pages/VideoUploadDialog.jsx:111-114 | once an upload starts, `isUploading` and `isProcessing` are set, link and error are cleared, and the Upload, Cancel and dialog-trigger buttons are all disabled |
| `UploadDialog.Abort` | frontend/src/pages/VideoUploadDialog.jsx:226-231 | a failure sets the error and lowers both flags, keeping the file and the link |
| `UploadDialog.HandleUpload` | frontend/src/pages/VideoUploadDialog.jsx:105-231 | with no file: no request and only the error changes. With a file: the flags are raised before the first request, which asks for a slot under `${timestamp}-${name}`. The steps fail fast: PUT only after a granted slot, trigger only after an ok PUT, polling only after an ok trigger. The PUT reuses the slot's content type and the trigger reuses its key. Failure lowers both flags, keeps the file and shows the failing step's error: the server's message or the slot fallback for a refused slot, "Invalid response from server." for a slot reply without URL, the parse error (or the fallback when empty) for an ok slot reply whose body cannot be read, "Failed to upload file to S3." or "Failed to start conversion." for a refused PUT or trigger, and the thrown message (or "Upload failed. Please try again." when empty) for a thrown `fetch`. Success forgets the file and keeps processing on |
| `UploadDialog.Positive` | frontend/src/pages/VideoUploadDialog.jsx:190 | a poll attempt succeeds on HTTP 200 with a non-empty `presignedUrl`; `Pipeline.PollPositiveExactlyWhenReady` states when the handler gives one |
| `UploadDialog.PollFrom` | frontend/src/pages/VideoUploadDialog.jsx:204-222 | from any attempt count below 40: it never passes 40 attempts and consumes no more replies than it is given; all but the last reply consumed are negative; each verdict (ready, timed out, still polling) comes with its exact state change |
| `UploadDialog.Poll` | frontend/src/pages/VideoUploadDialog.jsx:177-222 | at most 40 attempts; an attempt is positive iff status 200 with a non-empty URL; ready iff the last attempt was positive, which sets the link and clears `isProcessing`; timed out iff 40 attempts and the last negative, which sets the "taking longer" error and clears `isProcessing` |
| `UploadDialog.ReadyOnLastAttempt` | frontend/src/pages/VideoUploadDialog.jsx:203-222 | 39 negatives then a positive reply: ready after exactly 40 attempts |
| `UploadDialog.TimesOutAfterForty` | frontend/src/pages/VideoUploadDialog.jsx:215-221 | 40 negatives: timed out after exactly 40 attempts with the timeout error, so no 41st attempt is made |
| `UploadDialog.FirstPositiveEndsPoll` | frontend/src/pages/VideoUploadDialog.jsx:188-213 | the first positive reply within the limit ends the poll at that attempt with its URL and clears `isProcessing` |
| `UploadDialog.Session` | frontend/src/pages/VideoUploadDialog.jsx:105-231 | requests come in the order slot, PUT, trigger, polls. There are at most 43 of them. Slot, trigger and every poll carry the same key, and slot and PUT the same content type. Polling happens iff all three steps succeed. The dialog trigger is disabled while a poll is pending and enabled again after it ends; after a failure both flags are down |
| `UploadDialog.NoPutWithoutSlot` | frontend/src/pages/VideoUploadDialog.jsx:135-148 | a refused slot request means only the slot request is ever sent, and an error shows |
| `UploadHandler.Dispatch` | lambda/upload-handler/lambda_function.py:36-108 | `trigger-conversion` starts a conversion and `get-audio` looks up the audio; any other or absent operation signs an upload |
| `UploadHandler.FullKey` | lambda/upload-handler/lambda_function.py:45 | the converter's key always starts with `user-uploads` and ends with the given key; a key that already starts with `user-uploads` is passed through |
| `UploadHandler.FullKeyIdempotent` | lambda/upload-handler/lambda_function.py:45 | prefixing twice is prefixing once |
| `UploadHandler.SignedKey` | lambda/upload-handler/lambda_function.py:109 | the signed key always starts with `user-uploads/` and is exactly 13 characters longer than the key, even for an already prefixed key |
| `UploadHandler.SignedKeyIsFullKey` | lambda/upload-handler/lambda_function.py:45-109 | the key signed for upload equals the key sent to the converter iff the key does not start with `user-uploads` |
| `UploadHandler.StripUploadPrefix` | lambda/upload-handler/lambda_function.py:74-75 | a key not starting with `user-uploads/`, in particular any key without `/`, is unchanged; otherwise it only shrinks |
| `UploadHandler.Mp3Key` | lambda/upload-handler/lambda_function.py:72-78 | the audio key always ends with `.mp3`; it has a `/` only if the key has one; for a key without `/` it is the text before the last dot (all of it if none) plus `.mp3` |
| `UploadHandler.Mp3KeyOfUploadedObject` | lambda/upload-handler/lambda_function.py:74-78 | `user-uploads/<name>` with no further `/` is looked up as `<name>` with its extension replaced by `.mp3` |
| `UploadHandler.StartConversionFor` | lambda/upload-handler/lambda_function.py:36-63 | with no converter configured: 500 and no call. Otherwise exactly one asynchronous invoke with the full key. 200 "Conversion started" with the invoke's status code iff the invoke returned; a raised invoke is 500 with the exception's text |
| `UploadHandler.FetchAudioFor` | lambda/upload-handler/lambda_function.py:64-106 | with no output bucket: 500 and no call. Otherwise the head goes to the `.mp3` key. 200 with the URL iff the object exists and signing worked, and then the head and the signing are the only calls. 202 "processing" iff head raised a `ClientError` with code 404. Any other head error, and a raised signing, is 500 with the exception's text |
| `UploadHandler.SignUploadFor` | lambda/upload-handler/lambda_function.py:108-125 | exactly one PUT signing, for the input bucket and `user-uploads/` + key, with the given content type or `video/mp4`; 200 with the URL iff signing worked, else 500 with the error's text |
| `UploadHandler.Handle` | lambda/upload-handler/lambda_function.py:22-131 | an undecodable body is 500 with the error's text. A missing or empty key is 400 "Missing key parameter" for every operation, before any AWS call, and 400 happens in no other case. Status codes are 200, 202, 400 or 500. A request with a key gets exactly the answer and calls of the operation `operation` selects. Each operation makes only its own kind of AWS call, and only `get-audio` answers 202 |
| `Converter.OutKey` | lambda/convert2audio/lambda_function.py:28-31 | the output key ends with `.mp3` and contains no `/` |
| `Converter.OutKeyOfAudioName` | lambda/convert2audio/lambda_function.py:28-31 | a `/`-free name ending in `.mp3` is its own output key |
| `Converter.OutKeyIdempotent` | lambda/convert2audio/lambda_function.py:28-31 | applying the derivation to its own output changes nothing |
| `Converter.OutKeyUnderDirectory` | lambda/convert2audio/lambda_function.py:28-31 | under a dot-free directory only the last segment's extension is replaced and the directory dropped, so `user-uploads/1-x.mp4` gives `1-x.mp3` |
| `Converter.DotInDirectory` | lambda/convert2audio/lambda_function.py:28-31 | the extension is cut at the key's last dot before the directory is dropped, so a dot in a directory swallows the rest of the path: `stem.ext/name`, with no later dot, is stored like `stem.mp3` (`a.b/c` gives `a.mp3`) |
| `Pipeline.BodyOf` | frontend/src/pages/VideoUploadDialog.jsx:123-186 | each page request carries its key and reaches the handler operation it means: the slot request the signing branch, with its content type; the trigger and the poll their named operations |
| `Pipeline.AsReply` | frontend/src/pages/VideoUploadDialog.jsx:188-190 | the page sees the handler's status; it sees a `presignedUrl` exactly for a ready or upload-URL answer and a message exactly for a message or conversion-started answer |
| `Pipeline.PollPositiveExactlyWhenReady` | frontend/src/pages/VideoUploadDialog.jsx:190 | the page's readiness test passes on a `get-audio` answer iff the key is non-empty, the output bucket is set, the object exists and a non-empty URL was signed |
| `Pipeline.TriggerAcceptedExactlyWhenInvoked` | frontend/src/pages/VideoUploadDialog.jsx:172 | the page sees the trigger as ok iff the key is non-empty, the converter is configured and the invoke returned |
| `Pipeline.SlotGrantedExactlyWhenSigned` | frontend/src/pages/VideoUploadDialog.jsx:135-146 | the page gets an upload URL iff the key is non-empty and the handler signed a non-empty URL |
| `Pipeline.PolledKeyIsConverterOutput` | lambda/convert2audio/lambda_function.py:28-31 | for a key with no `/` that does not start with `user-uploads`, the converter's output key for `full_key` is the handler's `mp3_key` |
| `Pipeline.PolledKeyNeedsFlatKey` | lambda/convert2audio/lambda_function.py:30-31 | for a key `dir/name` whose directory has no dot and which does not start with `user-uploads`, the two keys differ: the converter keeps only the name's stem plus `.mp3`, `get-audio` keeps the directory |
| `Pipeline.DottedDirectoryKeysAgree` | lambda/upload-handler/lambda_function.py:72-78 | a `/` alone does not make the keys differ: for `stem.ext/name` with no later dot and a `/`-free stem, both the converter and `get-audio` use `stem.mp3` |
| `Pipeline.UploadedObjectIsConverted` | lambda/upload-handler/lambda_function.py:45-109 | for a key not starting with `user-uploads`, the key the upload URL is signed for is the key the converter is invoked on |
| `Pipeline.PolledObjectIsWritten` | lambda/upload-handler/lambda_function.py:74-84 | for such a key with no `/`, the key `get-audio` heads is the key the converter writes |
| `Pipeline.PageKeyIsFlatAndUnprefixed` | frontend/src/pages/VideoUploadDialog.jsx:119-120 | the page's keys never start with `user-uploads` (they start with a digit) and have no `/` when the file name has none |
| `Pipeline.PageKeysReachTheSameObjects` | frontend/src/pages/VideoUploadDialog.jsx:117-120 | for a page key from a `/`-free file name: the key signed for upload is the key the converter reads, and the key polled is the converter's output key |

## Left out

- Network, S3 and Lambda calls (`fetch`, `head_object`, `generate_presigned_url`, `invoke`, `download_file`, `upload_file`) are abstract outcomes. Presigned URLs are opaque strings, and the URL returned does not depend on the bucket, key or content type signed.
- JSON encoding and decoding are not modelled. The handler receives the decoded `key`, `contentType` and `operation` as optional strings, or the decoding error's text. The page receives `message` and `presignedUrl` as optional strings, or the parse error's text. JSON values of other types (a numeric key, a non-string URL) are not modelled.
- Buckets: the page's requests and the handler's responses name keys only. The handler signs uploads for its own `INPUT_BUCKET` and looks for audio in its own `OUTPUT_BUCKET`; the conversion Lambda reads and writes its own `INPUT_BUCKET` and `OUTPUT_BUCKET` (lambda/convert2audio/lambda_function.py:8-9). The Pipeline lemmas compare keys, so they speak of the same objects only when both Lambdas are deployed with the same two buckets, which the model assumes.
- Response headers (the two CORS header sets) are not modelled.
- The environment variables become the `Config` parameter. For `OUTPUT_BUCKET` and `CONVERT_LAMBDA_NAME`, read with `os.environ.get`, an unset variable and one set to the empty string behave alike, because both are falsy in Python. `INPUT_BUCKET` is read with `os.environ[...]`, so the function fails to load when it is unset; `Config.inputBucket` assumes it is set, and an empty value is signed for as is.
- A `ClientError` raised by the download signing in `get-audio` would be caught by the same `except` as the head's (so a code of 404 there would answer 202); the model's `PresignRaised` stands for any other exception, which becomes a 500 with its text.
- `Date.now()` is the `now` parameter. Its decimal rendering is modelled; the exponent notation JavaScript uses from 10^21 on is not.
- `Text.Lower`: lower-cases ASCII letters only. JavaScript's `toLowerCase` also maps other letters; for example, the Kelvin sign lowers to `k`, so a name ending `.mKv` is a video to the page but not to the model.
- The 3-second `setInterval` schedule is modelled as a sequence of attempt outcomes taken in order. The code does not stop a new attempt from starting while a slow one is still pending, so overlapping attempts and their effect on the counter are not modelled.
- The page has no transition that stops a poll; Cancel only clears the file and the error (`UploadDialog.Cancel`). The model therefore has none either, and it does not model starting a second upload while a poll runs: the dialog trigger is disabled while `isProcessing`.
- The dialog's `open` flag, `target.value = ""`, the toast, `console.error`, `print`, all JSX markup, theming, and `frontend/src/App.jsx` are not modelled.
- `formatFileSize` is not modelled, because it uses floating-point `Math.log` and `Math.round`.
- The `useCallback` version of `checkIfReady` (frontend/src/pages/VideoUploadDialog.jsx:55-77) is not modelled: it is never called, and the inner copy shadows it.
- The conversion Lambda's other work is not modelled. This covers the `rm -rf /tmp/*`, the moviepy conversion, the local paths, the SNS message and its download link. Only `out_key` is modelled.
- `Text.RemoveAll`: its contract does not describe the full result when the pattern occurs; the body is Python's left-to-right, non-overlapping replacement.
- `UploadHandler.StripUploadPrefix`: its contract does not describe the result for keys that do start with `user-uploads/`. Only the case of `user-uploads/` plus a `/`-free name is stated, by `UploadHandler.Mp3KeyOfUploadedObject`.

Behaviour a reader might expect that the code does not have, and the model therefore does not have either:

- A poll attempt is positive on HTTP status 200 with a non-empty `presignedUrl`, not on a body status of "success".
- The handler ignores the `bucket` sent with the slot request and signs for its own input bucket.
- Polling has no cancellation, and attempts are not guaranteed to run one at a time.
- The page keeps separate flags (`selectedFile`, `error`, `isUploading`, `isProcessing`, `downloadLink`), not a single workflow state.
