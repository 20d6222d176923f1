# AirSafe 2 stream client and checkpoint store, in Dafny

This project models the two parts of the AirSafe 2 targets-stream examples that carry real logic. It proves their properties.

1. **The stream client** (`serverless/aws-lambda/client.py`), which has four parts:
   - the stream parameters, each with a fixed query key and a rendering;
   - `StreamConfig`, the key/value dictionary the parameters are added to;
   - the timer, with its hard and graceful stop rule;
   - the `Client`, its callbacks and the `stream` loop.

   `stream` ends in one of four ways:
   - a 401 fails with `ErrInvalidToken`;
   - running out of lines fails with `ErrServerDisconnected`;
   - a local stop returns the last position token;
   - a line that cannot be handled (not JSON, not an object, or a status without a known level, a message or a timestamp) raises out of the loop.

2. **The checkpoint store** (`PositionTokenProcessor` in `docker/main.py`). A write goes to the staging file `token.0.txt` and is renamed to `token.<time>.txt`. After that, all but the five greatest `token.*.txt` names are removed. A read returns the contents of the greatest such name.

Modules:

- `Wrappers`: `Option`.
- `Text`: decimal rendering and parsing of integers (Python `str(int)`), and joining and splitting on a one-character separator.
- `Lexicographic`: Python's string order, strictly sorted sequences, and the sorted listing of a set of names (Python `sorted`).
- `Filters`:
  - the closed family of stream parameters;
  - their `Key` and `Value`;
  - `Decode`, a reference reading that is the partner of the rendering;
  - `Configured`, the dictionary a sequence of `add` calls builds;
  - the `StreamConfig` class.
- `Session`:
  - the timer and `StopDecision`;
  - the decoded-line datatypes, `Classify` and `HandleLine`;
  - the specification of the loop (`StepOf`, `RunLines`, `RunStream`);
  - the `Client` class, whose `ReadLines` and `Stream` methods are proved against that specification.
- `Checkpoint`:
  - the token directory, as a map from file name to contents;
  - the specification functions `Latest` and `AfterWrite`;
  - the `PositionTokenProcessor` class, whose methods are proved against those functions;
  - the pruning and round-trip lemmas.

Inputs that come from outside the program are parameters of the model:

- **The HTTP response.** It is a status code plus the lines it yields. Each line is already decoded, or marked as text that `json.loads` rejects.
- **Elapsed time.** Each line carries the integer elapsed-time reading taken after it was handled.
- **The rendered `time.time()`.** This is the `stamp` parameter of a write.
- **Where a directory operation raises.** This is the `Fault` parameter of a write, or `openFails` for a read.

Where the behaviour described for the system differs from the code, the model follows the code:

- **The hard stop.** It fires when `elapsed > timeout` (strict, `client.py:256`), not when `elapsed >= timeout`.
- **The `graceful_timeout` flag.** The stop rule never reads it. It only gates the warning at `client.py:331-333` (`Session.TimeoutWarning`).
- **The last position token and message type.** They are fields of the `Client` instance (`client.py:277-278`). They outlive a `stream` call, and a session starts from whatever an earlier session left.
- **A line that is not valid JSON.** It raises out of `stream` (`client.py:357`). Only a valid JSON object with none of the three keys is logged and skipped. The same holds for a JSON value that is not an object, and for a status object without a known level, a message or a timestamp (`StreamResult.Propagated`).
- **A response of one position-token line.** It delivers that token to its callback and leaves it on the client. Then the stream ends with `ErrServerDisconnected`, so `stream` does not return the token (`client_test.py:141-147`; `Session.SingleTokenLine`).
- **Failed writes.** The system is described as reading only fully renamed checkpoints. The code also reads the staging file `token.0.txt` (see Findings).

## Model

| member | source | states |
|---|---|---|
| Text.ParseIntToString | airsafe-v2-targets-stream-examples/serverless/aws-lambda/client.py:64-69 | the decimal text of every integer, including a negative one, reads back as that integer |
| Filters.KeyIdentifiesKind | airsafe-v2-targets-stream-examples/serverless/aws-lambda/client.py:51-184 | two parameters share a query key exactly when they are of the same kind, so the ten keys are distinct |
| Filters.RangeRoundTrip | airsafe-v2-targets-stream-examples/serverless/aws-lambda/client.py:81-87 | a float range renders as `"lower,upper"`, which splits back into exactly its two bounds when neither holds a comma |
| Filters.DecodeAltitude | airsafe-v2-targets-stream-examples/serverless/aws-lambda/client.py:108-114 | an integer range renders as `"lower,upper"` and reads back as the same two integers |
| Filters.DecodeKeyValue | airsafe-v2-targets-stream-examples/serverless/aws-lambda/client.py:43-184 | every well-formed parameter of every kind is read back from its own key and rendered value (text as is, ints as decimal, ranges as `lower,upper`, booleans as `true`/`false`, lists joined with `,` in order) |
| Filters.ConfiguredKeys | airsafe-v2-targets-stream-examples/serverless/aws-lambda/client.py:195-210 | the keys of the dictionary built by successive `add` calls are exactly the keys of the parameters added |
| Filters.ConfiguredLastWins | airsafe-v2-targets-stream-examples/serverless/aws-lambda/client.py:195-203 | each key holds the value of the last parameter added with that key |
| Filters.AddOverwrites | airsafe-v2-targets-stream-examples/serverless/aws-lambda/client.py:195-203 | a second `add` with the same key gives the same dictionary as adding only the second, and leaves every other key's value as it was |
| Filters.ConfiguredDecodes | airsafe-v2-targets-stream-examples/serverless/aws-lambda/client.py:195-210 | every entry of a dictionary built from well-formed parameters reads back as a parameter with that key |
| Filters.StreamConfig.constructor | airsafe-v2-targets-stream-examples/serverless/aws-lambda/client.py:192-193 | a new configuration holds the empty dictionary |
| Filters.StreamConfig.Add | airsafe-v2-targets-stream-examples/serverless/aws-lambda/client.py:195-203 | `add` stores `key -> value` of the parameter over the old dictionary, keeping it equal to the dictionary the sequence of adds builds |
| Filters.StreamConfig.Get | airsafe-v2-targets-stream-examples/serverless/aws-lambda/client.py:205-210 | `get` returns the dictionary, with one entry for each distinct key added and no other |
| Session.StopDecision | airsafe-v2-targets-stream-examples/serverless/aws-lambda/client.py:297-305 | no stop without a timeout; a hard stop exactly when elapsed strictly exceeds the timeout; otherwise a graceful stop exactly when the last message was a position token and less than 30 remains |
| Session.Classify | airsafe-v2-targets-stream-examples/serverless/aws-lambda/client.py:359-378 | a decoded object takes the target branch if it has a target, else the position-token branch, else the status branch; it is unprocessable exactly when it has none of the three keys |
| Session.HandleLine | airsafe-v2-targets-stream-examples/serverless/aws-lambda/client.py:355-378 | a target, position-token or status line sets the last message type to its own kind, an unprocessable line leaves the state unchanged and delivers nothing; only a position-token line changes the last token, to exactly its token, which it alone hands to the token callback; a target line hands exactly its payload to the target callback and a well-formed status line exactly its status to the status callback; the line raises exactly when it is not JSON, not an object, or a status without level, message or timestamp, and a line that is not an object leaves the state unchanged |
| Session.SessionTracksLastToken | airsafe-v2-targets-stream-examples/serverless/aws-lambda/client.py:280-284 | after a session the client holds, and a local stop returns, the last position token among the lines handled, or the token held before when none came |
| Session.SessionDeliversTargets | airsafe-v2-targets-stream-examples/serverless/aws-lambda/client.py:359-363 | the target callback, when given, receives exactly the payloads of the target lines handled, in order, and nothing else |
| Session.SessionDeliversTokens | airsafe-v2-targets-stream-examples/serverless/aws-lambda/client.py:365-369 | the position-token callback, when given, receives exactly the tokens of the position-token lines handled, in order, and nothing else |
| Session.DisconnectConsumesAll | airsafe-v2-targets-stream-examples/serverless/aws-lambda/client.py:355-382 | the session ends with `ErrServerDisconnected` only after handling every line without a stop, and then holds the last token of all the lines |
| Session.NoStopDisconnects | airsafe-v2-targets-stream-examples/serverless/aws-lambda/client.py:355-382 | when no line raises and every line is read while at least 30 of the timeout remains, the loop handles every line and ends with `ErrServerDisconnected` |
| Session.NoTimeoutNeverStops | airsafe-v2-targets-stream-examples/serverless/aws-lambda/client.py:243-247 | without a timeout the session never stops on its own |
| Session.UnauthorizedFailsFirst | airsafe-v2-targets-stream-examples/serverless/aws-lambda/client.py:351-352 | a 401 response fails with `ErrInvalidToken` before any line is handled or any callback runs, and leaves the client's state as it was |
| Session.StatusOnlyDisconnects | airsafe-v2-targets-stream-examples/serverless/aws-lambda/client_test.py:96-124 | a response of well-formed status lines, with no timeout, never reaches the target or token callbacks and ends with `ErrServerDisconnected` |
| Session.SingleTokenLine | airsafe-v2-targets-stream-examples/serverless/aws-lambda/client_test.py:127-147 | one position-token line: the callback gets exactly that token, the client keeps it, and the session ends with `ErrServerDisconnected` |
| Session.SingleTargetLine | airsafe-v2-targets-stream-examples/serverless/aws-lambda/client_test.py:150-170 | one target line: the target callback gets exactly its payload, and the session ends with `ErrServerDisconnected` |
| Session.HardTimeoutExample | airsafe-v2-targets-stream-examples/serverless/aws-lambda/client_test.py:179-214 | with lines [target A, token T, target B] and timeout 0, a hard stop after the first line delivers only A and a new client returns no token |
| Session.GracefulTimeoutExample | airsafe-v2-targets-stream-examples/serverless/aws-lambda/client_test.py:179-214 | the same lines with timeout 1: a graceful stop right after T delivers only A and returns T |
| Session.BearerRoundTrip | airsafe-v2-targets-stream-examples/serverless/aws-lambda/client.py:337 | the `Authorization` value `Bearer <token>` carries exactly the client's token (section 2.1 of RFC 6750) |
| Session.Client.constructor | airsafe-v2-targets-stream-examples/serverless/aws-lambda/client.py:264-278 | a new client keeps its credentials and holds no last token and no last message type |
| Session.Client.WithDefaultUrl | airsafe-v2-targets-stream-examples/serverless/aws-lambda/client.py:264-278 | a client built from a token alone connects to the AirSafe 2 stream endpoint and holds no last token and no last message type |
| Session.Client.PositionTokenCallback | airsafe-v2-targets-stream-examples/serverless/aws-lambda/client.py:280-284 | sets the last message type to position token and the last token to exactly the given token |
| Session.Client.StatusCallback | airsafe-v2-targets-stream-examples/serverless/aws-lambda/client.py:286-292 | sets the last message type to status, keeps the last token, and succeeds exactly when the status has a known level, a message and a timestamp |
| Session.Client.TargetCallback | airsafe-v2-targets-stream-examples/serverless/aws-lambda/client.py:294-295 | sets the last message type to target and keeps the last token |
| Session.Client.GeneralCallback | airsafe-v2-targets-stream-examples/serverless/aws-lambda/client.py:297-305 | returns the stop decision; no stop exactly when there is no timeout, or time is not up and either the last message was not a token or at least 30 remains |
| Session.Client.Dispatch | airsafe-v2-targets-stream-examples/serverless/aws-lambda/client.py:355-378 | the state change, callbacks and raised failure of one line are those `HandleLine` specifies |
| Session.Client.Turn | airsafe-v2-targets-stream-examples/serverless/aws-lambda/client.py:355-380 | one pass of the loop body, dispatch then stop decision, is the step `StepOf` specifies |
| Session.Client.ReadLines | airsafe-v2-targets-stream-examples/serverless/aws-lambda/client.py:355-388 | the loop's result, callbacks and final client state are those of `RunLines` from the client's state before the loop |
| Session.Client.Stream | airsafe-v2-targets-stream-examples/serverless/aws-lambda/client.py:307-388 | warns exactly when a timeout under 30 is given with graceful mode; issues a GET to the base URL with the configured parameters, the bearer header and read timeout 30; and ends as `RunStream` specifies |
| Lexicographic.LessTransitive | airsafe-v2-targets-stream-examples/docker/main.py:67 | Python's string order is transitive |
| Lexicographic.LessTotal | airsafe-v2-targets-stream-examples/docker/main.py:67 | of two different strings exactly one sorts before the other |
| Lexicographic.Insert | airsafe-v2-targets-stream-examples/docker/main.py:67 | inserting a name into a strictly sorted listing keeps it strictly sorted and adds exactly that name |
| Lexicographic.SortedUnique | airsafe-v2-targets-stream-examples/docker/main.py:67 | two strictly sorted listings of the same names are equal, so `sorted` of a set of names is determined |
| Lexicographic.Listing | airsafe-v2-targets-stream-examples/docker/main.py:66-67 | the sorted listing of a set of names is strictly sorted and holds exactly those names |
| Lexicographic.GreatestIsLast | airsafe-v2-targets-stream-examples/docker/main.py:67-70 | the greatest name of a sorted listing is its last element (`tokens[-1]`) |
| Checkpoint.TimestampedName | airsafe-v2-targets-stream-examples/docker/main.py:91-92 | every `token.<time>.txt` name matches the pattern `token.*.txt` |
| Checkpoint.StagingMatchesPattern | airsafe-v2-targets-stream-examples/docker/main.py:87 | the staging name `token.0.txt` is itself a timestamped name and matches `token.*.txt` |
| Checkpoint.Renamed | airsafe-v2-targets-stream-examples/docker/main.py:91-92 | a rename moves the contents to the new name, removes the old name, and leaves every other file as it was |
| Checkpoint.Latest | airsafe-v2-targets-stream-examples/docker/main.py:66-69 | a read finds nothing exactly when no name matches `token.*.txt` |
| Checkpoint.PositionTokenProcessor.constructor | airsafe-v2-targets-stream-examples/docker/main.py:55-56 | the processor works on the given directory |
| Checkpoint.PositionTokenProcessor.ListTokens | airsafe-v2-targets-stream-examples/docker/main.py:66-67 | the loop returns the token names in strictly increasing order, exactly the sorted listing |
| Checkpoint.PositionTokenProcessor.ReadLastPositionToken | airsafe-v2-targets-stream-examples/docker/main.py:58-75 | returns the contents of the greatest token name, or nothing when there is none or opening fails, and never raises |
| Checkpoint.PositionTokenProcessor.WriteLastPositionToken | airsafe-v2-targets-stream-examples/docker/main.py:77-103 | the directory afterwards is the one `AfterWrite` specifies for where the write fails, if it does |
| Checkpoint.PositionTokenProcessor.RemoveStale | airsafe-v2-targets-stream-examples/docker/main.py:96-99 | removes the stale names in increasing order, stopping at the removal that fails |
| Checkpoint.LatestIsGreatest | airsafe-v2-targets-stream-examples/docker/main.py:66-72 | a read returns the contents of the greatest token name |
| Checkpoint.ListingLast | airsafe-v2-targets-stream-examples/docker/main.py:66-72 | when a token name exists, the read returns the contents of the name all others sort before |
| Checkpoint.PrunedNames | airsafe-v2-targets-stream-examples/docker/main.py:93-99 | pruning removes the first names of the sorted listing, all but the last five, and keeps exactly the rest |
| Checkpoint.PruningOnlyDeletes | airsafe-v2-targets-stream-examples/docker/main.py:96-99 | pruning only deletes: each kept file keeps its contents, and every file that is not a token name is kept |
| Checkpoint.PruningKeepsFive | airsafe-v2-targets-stream-examples/docker/main.py:96-99 | after pruning, all token names remain when there were fewer than five, and exactly five otherwise |
| Checkpoint.PruningRemovesOldest | airsafe-v2-targets-stream-examples/docker/main.py:93-99 | every token name pruning removes sorts before every token name it keeps |
| Checkpoint.WriteKeepsAtMostFive | airsafe-v2-targets-stream-examples/docker/main.py:87-99 | after a successful write at most five token names remain |
| Checkpoint.StaleExcludesGreatest | airsafe-v2-targets-stream-examples/docker/main.py:97-99 | the greatest token name is never removed, even when a removal fails part way |
| Checkpoint.WriteThenRead | airsafe-v2-targets-stream-examples/docker/main.py:87-99 | a read after a write whose rename succeeded returns the token written, when the new name sorts after every other token name |
| Checkpoint.FailedWriteKeepsLatest | airsafe-v2-targets-stream-examples/docker/main.py:79-84 | a write that fails before its rename leaves what a read returns unchanged, when a committed name sorts after the staging name |
| Checkpoint.PartialWriteIsRead | airsafe-v2-targets-stream-examples/docker/main.py:87-90 | as written: in an empty directory, a write of `ab` that fails after one character is read back as `a` |
| Checkpoint.FailedWriteKeepsCommitted | airsafe-v2-targets-stream-examples/docker/main.py:79-84 | with the staging file ignored, a write that fails before its rename never changes what is read |
| Checkpoint.WriteThenReadCommitted | airsafe-v2-targets-stream-examples/docker/main.py:87-99 | with the staging file ignored, a successful write is still read back |

## Left out

- **HTTP transport.** `requests.get`, `iter_lines`, the connect and read timeouts, and `r.json()` on a 401 are left out. The response is a status code plus its lines, and the request is returned as a value.
- **UTF-8 decoding and JSON parsing.** A line is given already decoded, or marked as rejected by `json.loads`.
  - A target payload is opaque text.
  - A `position_token` value that is not a string (for example JSON `null`, which the source would store as `None`) is not modelled.
  - A `status` value that is not an object is not modelled.
- **Clocks and floats.**
  - `time.perf_counter` and `time.time` become integer inputs. One elapsed reading is taken per line, where the source reads the clock twice in `_general_callback`.
  - The float timeout is an integer.
  - Python's float-to-text formatting in the latitude and longitude filters is left out. Their bounds are given as rendered text.
- **Logging.** The status-level map is kept only to decide whether `_status_callback` raises. The timeout warning is a boolean.
- **Caller callbacks.** They are recorded as deliveries. An exception raised inside a caller's callback is not modelled.
- **`Filters.StreamConfig.Get`.** It returns the dictionary by value. The source returns its own `_parameters` dict, so later mutation through that alias is not modelled.
- **Paths.** The `LAST_POSITION_TOKEN_LOCATION` directory prefix of paths is dropped. The glob and the sort work on bare names, which orders them the same way.
- **Read faults.** A read fault is a single `openFails` flag. A failing `glob` behaves the same: the read returns nothing.
- **Concurrency.** Two processes writing the same directory at once are not modelled.
- **Other components.** The cloud-storage get and put wrappers (S3, GCS), the handlers, `main()`, `must_getenv`, `TargetProcessor`, the UI code and the example and tutorial scripts are not part of this model.
- **The add/get example at client_test.py:27-63.** It is covered by the general lemmas on `Configured` and `DecodeKeyValue`. It is not stated as a concrete instance.
- **Checkpoint.FailedWriteKeepsLatest:** it requires a committed token name that sorts after `token.0.txt`. Without one, the code reads the staging file (see Findings).
- **Checkpoint.WriteThenRead:** it requires the new timestamped name to sort after every existing token name. The real clock makes this hold only while times keep the same number of digits.

## Findings

| source | as written | input that shows it | evidently intended | confidence | as-written member | corrected member |
|---|---|---|---|---|---|---|
| airsafe-v2-targets-stream-examples/docker/main.py:66, 87-90 | the staging name `token.0.txt` matches the read's pattern `token.*.txt`, so a write that fails before its rename can be read back | an empty token directory, then `write_last_position_token("ab")` failing after one character is written, then `read_last_position_token()` returns `"a"` | a failed or incomplete write leaves the previous token, or none, as what a read returns (main.py:81-83) | medium, not executed | Checkpoint.PartialWriteIsRead | Checkpoint.FailedWriteKeepsCommitted |

`Checkpoint.LatestCommitted` is the corrected read: the greatest committed token, with the staging file ignored. `Checkpoint.FailedWriteKeepsCommitted` and `Checkpoint.WriteThenReadCommitted` prove the intended properties of it. The methods of `PositionTokenProcessor` keep the behaviour as written.
