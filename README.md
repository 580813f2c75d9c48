# Queue-state handling of the HPC-AI SDK client, in Dafny

This project models how the SDK client reacts to a remote service that puts
requests into a server-side queue, as its end-to-end queue tests pin it down:

- **Queue-state extraction.** When the transport raises a status error, the
  poller reads `queue_state` from the error's already-decoded `body`. A body
  that is not a mapping counts as empty. Only the exact string `"in_queue"`
  becomes `QueueState.IN_QUEUE`, and only then is the observer notified. The
  raw response is never read, because it may already be closed.
- **The closed response.** `MockResponse` is a transport response that can be
  read only while it is open. It is the adversary for the extraction.
- **Throttled per-context logging.** A `QueueStateLogger` owns its own "last
  emitted" timestamp. It emits one warning for `IN_QUEUE` and stays silent for
  the rest of a 60-second window. `ServiceClient.on_queue_state_change`
  forwards to such a logger, whose context label is "Model creation". Loggers
  of different contexts share only the log sink, never their throttle state.

Modules, one per component:

- `Wrappers` holds `Option` and `Result`.
- `JsonValues` holds the decoded JSON body and Python truthiness.
- `QueueStates` holds the state enumeration.
- `StatusErrors` holds `MockResponse`, the status error, the extraction, a
  recording observer and the closed-stream scenario.
- `Throttle` holds the pure throttling rule, `Decide`. `Replay` runs that rule
  over a sequence of calls. Lemmas prove facts about such runs.
- `LogCapture` holds log records, the shared sink, and the captured text with
  substring search.
- `QueueStateLogging` holds the logger class, the service client class and the
  two logging scenarios.

Time is an integer number of seconds, passed to each call as `now`. The
logging sink is an object whose record list the loggers append to. Each
logger also keeps a ghost list of the times at which it emitted.
`QueueStateLogger.Log` may modify only its own logger and the sink, so a call
on one logger cannot change another logger's timestamp.

## Model

| member | source | states |
|---|---|---|
| `StatusErrors.ExtractQueueState` | tests/test_queue_state_e2e.py:124-128 | The result is `InQueue` exactly when the body is a mapping whose `queue_state` is the string "in_queue". In every other case it is absent: a non-mapping body, a missing key, or any other value. It never yields `NotQueued`. It takes only the body and reads no object, so it cannot consult the response. |
| `StatusErrors.HandleStatusError` | tests/test_queue_state_e2e.py:118-132 | The observer gets exactly one `InQueue` call when the body signals "in_queue", and no call otherwise. Only the observer changes. Nothing is required of the response, which may be closed. |
| `StatusErrors.ClosedStreamScenario` | tests/test_queue_state_e2e.py:91-132 | Take a 408 error whose response is closed and whose body is {"queue_state":"in_queue","type":"try_again"}. The observer is called once, with `InQueue`, even though reading that response fails with the closed-stream error. |
| `StatusErrors.MockResponse.constructor` | tests/test_queue_state_e2e.py:24-27 | A new response stores its status code and data and starts open. |
| `StatusErrors.MockResponse.Json` | tests/test_queue_state_e2e.py:29-32 | On a closed response, reading fails with "Attempted to read from a closed stream". On an open one, it returns the stored data unchanged. |
| `StatusErrors.MockResponse.Close` | tests/test_queue_state_e2e.py:34-35 | Closing marks the response closed. |
| `StatusErrors.RecordingObserver.OnQueueStateChange` | tests/test_queue_state_e2e.py:118 | The patched observer records each notification in order. |
| `Throttle.Decide` | tests/test_queue_state_e2e.py:143-158 | A call with a state other than `IN_QUEUE` neither emits nor changes the timestamp. An emission sets the timestamp to the call's time, and lies at least one window after the previous emission, if there was one. Once set, the timestamp never moves back. Its consequences for runs of calls are proved by `Throttle.ReplayKeepsSpacing` and `Throttle.OnlyFirstInWindowEmits`. |
| `Throttle.OnlyFirstInWindowEmits` | tests/test_queue_state_e2e.py:76-81 | Take a logger that has never emitted. Give it a run of `IN_QUEUE` calls, none coming a full window or more after the first call (earlier clock readings are allowed). Exactly one emission occurs, at the first call, and that call's time becomes the timestamp. |
| `Throttle.ReplayKeepsSpacing` | tests/test_queue_state_e2e.py:79 | Take any run of calls on a fresh logger. No two emissions fall within one window of each other. The timestamp is the time of the latest emission. |
| `QueueStateLogging.QueueStateLogger.constructor` | tests/test_queue_state_e2e.py:143-144 | A new logger has its context name, the 60-second window, no timestamp and no emissions. |
| `QueueStateLogging.QueueStateLogger.Log` | tests/test_queue_state_e2e.py:143-158 | The new timestamp, emission history and sink contents follow the throttling rule. An emission appends exactly one warning for this logger's context. The logger's spacing invariant is kept. |
| `QueueStateLogging.ServiceClient.constructor` | tests/test_queue_state_e2e.py:72 | A new client owns a fresh logger labelled "Model creation" that has never emitted. |
| `QueueStateLogging.ServiceClient.OnQueueStateChange` | tests/test_queue_state_e2e.py:76-77 | Each notification goes to the client's own logger, with that logger's effect on its timestamp and on the sink. |
| `QueueStateLogging.PausedMessage` | tests/test_queue_state_e2e.py:82-83 | The warning for a context contains "<context> is paused" and "request is in queue". |
| `QueueStateLogging.TextMentionsPaused` | tests/test_queue_state_e2e.py:148 | The captured text contains "<context> is paused" for each paused warning it holds. |
| `QueueStateLogging.RepeatedQueueNotifications` | tests/test_queue_state_e2e.py:65-83 | A new service client gets `IN_QUEUE` several times, none a full window or more after the first, and emits exactly one warning record. That warning contains "Model creation is paused" and "request is in queue". |
| `QueueStateLogging.TwoContextsText` | tests/test_queue_state_e2e.py:146-152 | After the first warning, the captured text contains "ServiceClient is paused". After the second, it contains "TrainingClient is paused". |
| `QueueStateLogging.IsolatedContexts` | tests/test_queue_state_e2e.py:134-158 | The "ServiceClient" and "TrainingClient" loggers each emit on their first `IN_QUEUE`, in that order, and one logger's emission does not throttle the other. After the sink is cleared, a second `IN_QUEUE` on each, still within the window, emits nothing. |
| `LogCapture.LogSink.Emit` | tests/test_queue_state_e2e.py:80 | An emitted record is appended to the captured records. |
| `LogCapture.LogSink.Clear` | tests/test_queue_state_e2e.py:155 | Clearing the capture empties the record list. |
| `LogCapture.Text` | tests/test_queue_state_e2e.py:148-152 | The captured text contains every captured message. |
| `LogCapture.Warnings` | tests/test_queue_state_e2e.py:80 | Each warning-level record occurs in the result as many times as in the input, and no other record occurs in it. So the number of warnings is counted exactly. Order is not stated. |
| `LogCapture.TextContainsMessage` | tests/test_queue_state_e2e.py:148 | A substring of any captured message is a substring of the captured text. |
| `LogCapture.AllWarningsKept` | tests/test_queue_state_e2e.py:80 | Filtering a list of warning records by level keeps every one of them. |

## Left out

- The `_APIFuture` polling loop and its states are not modelled: waiting, retrying, resolving, failing and cancelling. Their implementation is not part of this model. Only the extraction-and-notify step of the error handler is modelled.
- HTTP status-code classification (transient or terminal) is not modelled, because no code for it is present.
- `ServiceClient` construction from an API key, the client holder, its event loop, telemetry and `execute_with_retries` are left out. They are test plumbing over code that is not part of this model.
- `time.time()` is left out. Time is an integer number of seconds passed in as `now`, so fractional timestamps are not modelled.
- JSON floating-point numbers are not modelled.
- The logging module is reduced to a record list and its captured text. Log formatting, handlers and sink failures are left out.
- Locking, and concurrent `log` calls on one logger, are left out.
- Two behaviours of the logger are not asserted by the tests: a call with a state other than `IN_QUEUE`, and an `IN_QUEUE` call once the window has passed. The model gives the logger its natural reading: the first does nothing and the second emits again. `Throttle.Decide` states this reading, but no lemma about runs of calls and no scenario depends on either case.
- `QueueStateLogging.PausedMessage`: only the substrings the tests check are known of the warning's text. The model uses "<context> is paused because the request is in queue", and its contract states only those substrings.
