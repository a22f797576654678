# aic-connector-cv in Dafny

This is a model of the AIC connector for computer vision. The connector is a
pipeline stage that reads serialized SAE messages from Redis streams. For each
message it:

- gives the message an id;
- uploads the files of its scratch output directory to MinIO under that id;
- posts a decision record to the cockpit's HTTP endpoint, fetching a bearer
  token first when auth is configured. The record links to the annotated image.

The model covers:

- the configuration records;
- the stage loop;
- the connector;
- the upload of one file;
- the decision payload and the HTTP exchange.

The outside world is an input. What the parser, the clock, `uuid4`, the
directory listing, the MinIO client and each POST return or raise arrives
with the message as a `MessageEnv`.

What the connector does to the outside world is an output: a trace of
effects that the connector object appends to. Each effect is an upload
attempt, a POST, or a logged error. Every operation is proved against a
function that gives that trace in closed form. Lemmas then state what the
trace means:

- the order of the steps;
- which failures are swallowed and which end the loop;
- what the payload holds;
- how the media link and the uploaded objects agree.

Modules follow the source files:

| Dafny module | models |
|---|---|
| `Config` | `aicconnector/config.py` |
| `StoreOutput` | `aicconnector/storeoutput.py` |
| `Decisions` | `aicconnector/httpoutput.py` |
| `Connector` | `aicconnector/aicconnector.py` |
| `Stage` | `aicconnector/stage.py` |

`Wrappers` (Option, Result), `Text` (zero-padded decimals) and `SaeMessages`
(the SAE message as datatypes) support them.

Some behaviour of the code is easy to misread; the model follows the code as
written:

- **Local time.** The message id takes local time from `datetime.now()`, not UTC.
- **Camera position.** Without a camera location, `camera_latitude` and
  `camera_longitude` are still written, as `null`: the dump has no
  `exclude_unset` or `exclude_none`.
- **Parse failure.** A message that fails to parse raises out of `get`;
  `run_stage` has no handler, so the loop ends.
- **What is uploaded.** The annotation call is commented out, so what is
  uploaded is whatever the `./output` listing holds, each file as
  `{id}/{name}`.
- **Token POST.** The token POST has no timeout, and its reply status is not
  checked. Only the decision POST has the configured timeout.
- **Bounds.** The Redis and Prometheus ports accept 65536; the HTTP timeout
  accepts 0.

## Model

| member | source | states |
|---|---|---|
| Config.ParseLogLevel | aicconnector/config.py:38 | a level string is accepted exactly when it is the value of some log level, and the level found has that value |
| Config.ValidateMinio | aicconnector/config.py:8-13 | valid iff every MinIO field is given, and then the record holds exactly the given endpoint, user, password, bucket and `secure` flag; otherwise a non-empty list of "missing" errors |
| Config.ValidateRedisInput | aicconnector/config.py:15-19 | valid iff stream ids and prefix are given and the port (if given) lies in 1..65536; host defaults to localhost and port to 6379; each error appears exactly when its field is missing or out of bounds |
| Config.ValidateAuth | aicconnector/config.py:21-25 | valid iff all four auth fields are given, and then holds them |
| Config.ValidateHttpOutput | aicconnector/config.py:27-32 | valid iff target, module name and a valid MinIO block are given, the timeout (if given) is at least 0 and any auth block is valid; the timeout defaults to 5 and auth stays absent when not given |
| Config.ValidateConnector | aicconnector/config.py:37-42 | valid iff the log level parses, a valid Redis block is given, any HTTP and local output blocks are valid and the Prometheus port (if given) lies in 1024..65536; the defaults are WARNING and 8000, optional blocks stay absent, and a local output keeps the given path |
| Config.HttpOutputErrorLocations | aicconnector/config.py:27-32 | a negative timeout, a missing `minio` block and a missing module name are each reported under their own field, exactly when they occur |
| Config.HttpOutputCarriesMinio | aicconnector/config.py:32-40 | a valid configuration with an HTTP output has its MinIO block and module name, with the bucket as given |
| Config.MergeFirstWins | aicconnector/config.py:46-48 | a field path (such as `http_output.timeout`) takes its value from the first source that has it |
| Config.MergeAbsent | aicconnector/config.py:46-48 | a field path no source has stays unset |
| Config.SettingsPrecedence | aicconnector/config.py:46-48 | for each field path, init arguments win over the environment, which wins over the YAML file, which wins over secret files; the dotenv source never affects the result |
| Text.ZeroPadded | aicconnector/aicconnector.py:37 | a strftime field is exactly `width` decimal digits |
| Text.DecimalRoundTrip | aicconnector/aicconnector.py:37 | reading a zero-padded field back gives the number written |
| Connector.SaeId | aicconnector/aicconnector.py:37 | the id has the shape `YYYYmmdd_HHMMSS_` followed by six lower-case hex digits |
| Connector.SaeIdFields | aicconnector/aicconnector.py:37 | the id's fields decode to the clock reading's year, month, day, hour, minute and second and to the UUID's first six hex digits |
| Connector.SaeIdInjective | aicconnector/aicconnector.py:37 | two messages share an id only if taken in the same second with the same UUID prefix |
| StoreOutput.NameOfFilePath | aicconnector/aicconnector.py:68-69 | the final component of `dir/name` is `name` |
| StoreOutput.SuffixShape | aicconnector/storeoutput.py:31 | a suffix is empty, or a dot followed by at least one character and no other dot, ending the name |
| StoreOutput.SuffixOfDottedName | aicconnector/storeoutput.py:31 | the suffix of `stem.ext` is `.ext` when both parts are non-empty, and empty otherwise |
| StoreOutput.ContentTypeBySuffix | aicconnector/storeoutput.py:27-31 | zip, jpeg and json content types go exactly with the suffixes `.zip`, `.jpg`, `.json`; every other suffix gets `application/octet-stream` |
| StoreOutput.FileContentType | aicconnector/storeoutput.py:27-31 | the content type of `stem.ext` follows the table by extension, and is octet-stream when there is no stem or no extension |
| StoreOutput.SaveFileToMinio | aicconnector/storeoutput.py:18-41 | a put happens iff the client could be built, into the configured bucket under the given object name for that file; nothing is raised iff the put succeeds; a failed put raises an IOError naming the file |
| StoreOutput.MatchingMembers | aicconnector/storeoutput.py:46-48 | a detection is selected iff it is in the input and carries the frame's timestamp |
| StoreOutput.MatchingAppend | aicconnector/storeoutput.py:46-48 | selection keeps the input order: selecting from a concatenation selects from each part in turn |
| StoreOutput.SelectCenterPoints | aicconnector/storeoutput.py:44-48 | the loop collects the `min_x` of exactly the detections selected for the frame, in order |
| Decisions.BuildDecision | aicconnector/httpoutput.py:59-69 | the record holds the media link `{bucket}/{id}/annotated.jpg`, the module name and the unconverted timestamp; latitude and longitude are set iff the frame has a camera location, and then equal it |
| Decisions.DumpIsWhitelisted | aicconnector/httpoutput.py:72-87 | the payload has exactly the eight listed fields; `module` and `decision_type` are null or hold exactly `id` and `name` |
| Decisions.DumpIgnoresOtherFields | aicconnector/httpoutput.py:72-87 | fields outside the include list, at the top or inside `module` or `decision_type`, never change the payload |
| Decisions.DecisionPayload | aicconnector/httpoutput.py:59-87 | the payload has the listed keys, the media link, `module` = `{id: null, name}`, the timestamp, the camera position or nulls, and nulls for the decision type, description and visualization link |
| Decisions.SendPostSequence | aicconnector/httpoutput.py:22-47 | without auth, one POST with the payload, JSON headers and the timeout; with auth, first the password-grant token POST with no timeout and then, if a token was read, the decision POST with the bearer header, two in all |
| Decisions.SendFailureIsLogged | aicconnector/httpoutput.py:22-57 | sending never raises; the exchange ends with one logged error event iff the token step or the decision POST failed (4xx/5xx or an exception), with the category of the first failure: the token step's, the caught exception's, or `HttpStatusError` with the reply status; everything before it is a POST |
| Decisions.BearerTokenFromReply | tests/test_httpoutput.py:42-50 | a token reply `{"access_token": "tok"}` gives `Bearer tok`; a reply without the field gives `Bearer None` |
| Decisions.HttpOutput.constructor | aicconnector/httpoutput.py:13-15 | the sender keeps its configuration |
| Decisions.HttpOutput.SendDecisionMessage | aicconnector/httpoutput.py:17-57 | the POSTs and logged errors are those of the exchange for the built payload, the auth setting and the replies |
| Connector.UploadEffects | aicconnector/aicconnector.py:67-72 | the upload loop only uploads and logs; it never touches HTTP |
| Connector.SaveEffects | aicconnector/aicconnector.py:53-77 | saving media only uploads and logs; it never touches HTTP |
| Connector.UploadsUntilFirstFailure | aicconnector/aicconnector.py:66-72 | every entry before the first failure is uploaded as `{id}/{name}`, in listing order; the failing entry's attempt and error are logged; nothing after it is attempted |
| Connector.FailureStopsUploads | aicconnector/aicconnector.py:66-72 | entries after a failing upload have no effect |
| Connector.NothingLeavesWithoutHttpOutput | aicconnector/aicconnector.py:35-72 | without HTTP output nothing is uploaded or sent; only a makedirs failure is logged |
| Connector.SaveThenSend | aicconnector/aicconnector.py:38-40 | all saving precedes all sending, and the HTTP exchange starts iff HTTP output is configured, whatever happened while saving |
| Connector.MediaUrlMatchesObjects | aicconnector/aicconnector.py:69-70 | every uploaded object lies in the bucket and under the id that the decision's media link names |
| Connector.UploadAll | aicconnector/aicconnector.py:67-72 | the loop leaves one put per entry before the first failure, then that failure's effects, and stops |
| Connector.UploadOne | aicconnector/aicconnector.py:68-72 | one entry's upload fails iff its client does not succeed, and leaves the put and, on failure, the logged error |
| Connector.AicConnector.constructor | aicconnector/aicconnector.py:25-29 | a sender exists iff HTTP output is configured; debug mode iff the level is DEBUG; nothing done yet |
| Connector.AicConnector.SaveSaeMedia | aicconnector/aicconnector.py:53-77 | the trace grows by the saving effects: a logged makedirs failure, or the uploads of the listing when HTTP output is configured |
| Connector.AicConnector.Get | aicconnector/aicconnector.py:35-47 | a message that does not parse raises its error and leaves the trace unchanged; otherwise the trace grows by the saving, then the sending, for the message's id |
| Stage.StreamKeys | aicconnector/stage.py:44 | one key per stream id, in order, each `{prefix}:{id}` |
| Stage.StreamKeysDistinct | aicconnector/stage.py:44 | distinct stream ids give distinct keys |
| Stage.FirstHalt | aicconnector/stage.py:47-58 | the loop gets past every item before the halting one, and not past that one |
| Stage.Dispatch | aicconnector/stage.py:56-58 | a keyed item raises iff its message does not parse; otherwise it adds that message's effects to the trace |
| Stage.RunLoop | aicconnector/stage.py:46-58 | the frame count is the number of keyed items taken; the trace is theirs in arrival order; the loop stops at the stop flag, crashes on the first keyed message that fails to parse, or ends with the stream |
| Stage.RunStage | aicconnector/stage.py:17-58 | the connector is built from the configuration, subscribes to the stream keys and runs the loop |
| Stage.StopIgnoresLater | aicconnector/stage.py:48-49 | once the stop flag is seen, neither that item nor any later one is taken |
| Stage.AllTakenWithoutHalt | aicconnector/stage.py:47-58 | without a stop or a parse failure, every item is taken and the loop ends with the stream |
| Stage.CrashIsLastHanded | aicconnector/stage.py:56-58 | on a crash, the failing message was the last one handed to the connector (and counted), and its error is the outcome |
| Stage.SkippedNotHanded | aicconnector/stage.py:51-52 | an item without a key is never handed to the connector or counted |
| Stage.SkippedAddsNothing | aicconnector/stage.py:51-52 | an item without a key adds nothing to the trace |

## Left out

- Protobuf decoding (`_unpack_proto`) is an input: each message arrives either parsed or with its `DecodeError`. `_pack_proto` is unused and `__call__` only forwards to `get`.
- The Redis consumer, signal handling and the stop event are left out. The stream is a finite sequence of items, each carrying the stop flag as it reads when the item arrives.
- The HTTP transport, the MinIO client and the filesystem are left out. Their results are inputs. The exceptions they raise are reduced to the categories the `except` clauses tell apart.
- Prometheus metrics (histograms, summaries, `start_http_server`) are left out. `FRAME_COUNTER` is the loop's frame count.
- Logging is left out. Log levels, `logger.setLevel` and message texts are not modelled; a logged error is modelled by its category only, and the two `logger.error` lines for a 4xx/5xx reply (httpoutput.py:52-53) are one `HttpStatusError` event.
- The annotation routine's drawing part (storeoutput.py:50-66) is left out because it is OpenCV work on pixels. Only its detection selection is modelled.
- Three steps are commented out in the source and are not modelled: the annotated-frame store, the copy to local output and the clean-up of `./output`.
- The frame read at the start of `_save_sae_media` is unused in the source. The message itself does not take part in saving.
- The `Decision`, `Module` and `DecisionType` classes come from the external `starwit_aic_api` package, which is not part of this model. The payload is keyed by the include list's field names. Field aliases, JSON text layout and float formatting are not modelled.
- Parsing of settings files and environment variables is left out: YAML, `env_nested_delimiter`, type coercion and `AnyHttpUrl` validation. Validation starts from the values the sources supplied.
- Config.MergeSources merges maps keyed by full field paths (`http_output.timeout`). The recursive merge of nested blocks is modelled by that flattening. A source that supplies a nested block as a non-mapping value is not modelled.
- Connector.ValidDateTime does not check day-of-month against the calendar. It admits every clock reading `datetime.now()` can give, and some it cannot.
- Stage.RunStage does not model `start_http_server` or the startup log line.
- Decisions.SendEffects lets the decision reply be anything for any configured timeout. With a timeout of 0, which validation accepts, the HTTP library rejects the timeout before sending. That `ValueError` would be caught as an unexpected error; the model does not force that outcome.
