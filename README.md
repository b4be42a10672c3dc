# Generic syslog client: verified model of the instance core

This project models the core of a syslog client module for a control-surface host platform. The module is one class, `SyslogClient` in `src/main.ts`. It takes log messages from an action, and while a message ends with a line feed it drops the message's last two characters. While a transport exists it then queues one send per message on a shared FIFO queue; otherwise it logs a warning and drops the message. It owns one transport handle from the syslog library and replaces that handle whenever a configuration with a non-empty host is applied. It also reports the transport's lifecycle events as instance status.

The model has four modules:

- `Wrappers` (`wrappers.dfy`): an `Option` type.
- `Trim` (`trim.dfy`): the trimming loop of `logMessage`, exactly as written. On each pass it checks whether the message ends with `'\n'`. If so, it removes the last **two** characters with JavaScript's `substring`, which clamps its indices, so a one-character string becomes empty. `"ab\n"` becomes `"a"`, `"a\r\n"` becomes `"a"`, and `"a\r"` is left as it is. The loop is a `method` with invariants, proved equal to a recursive function `Trimmed`. `Trimmed` is proved equal to an independent description, `IsTrimOf`, in both directions.
- `Options` (`options.dfy`): the configuration record, and the `ClientOptions` literal built from it. That mapping is proved lossless apart from the host.
- `Instance` (`instance.dfy`): class `SyslogClient`. Its fields are:
  - the stored configuration;
  - the optional transport handle;
  - the outbound queue, as a `seq` of tasks;
  - the last status report;
  - the log lines emitted;
  - the sends handed to transports;
  - the sends whose completion callback has not fired yet;
  - the number of transports created (each handle's id is its creation number);
  - a ghost list of the ids closed, in order.

  `Valid()` is the object invariant, and every method preserves it:
  - once set, the handle is the newest transport;
  - every transport that was replaced has been closed;
  - a task is queued only while a handle exists.

  Each method states its whole new state. `LifecycleScenario`, `SendFailureScenario` and `StaleTransportScenario` are client methods. They are proved to drop an early message with a warning, to queue a trimmed message, to close the first transport once when reconfigured, to log a failed send's own message without changing the status, and to keep sending on the old transport after a configuration without a host.

Calls into code that is not visible become parameters:
- The text returned by `parseVariablesInString` is the `msg` argument of `LogMessage`.
- The JSON rendering of a send error is the `error` argument of `OnSendComplete`. That method also takes the index of the started send whose callback fires.
- The fields of an `Error` object are a `JsError` value.

The code does not do the following, and neither does the model:
- decode escape sequences in the message;
- strip a trailing `'\r'` (and when a line feed is trimmed, the character before it goes too);
- change the status when a send succeeds or fails (the callback only logs);
- debounce status reports;
- set an initial "Connecting" status (so the model's status is `None` until the first report);
- drop messages after a reconfiguration without a host: the status becomes BadConfig, but the previous transport is kept and still sends (`StaleTransportScenario`).

## Model

| member | source | states |
|---|---|---|
| `Trim.TrimTrailingNewlines` | src/main.ts:22-24 | the loop terminates; its result equals `Trimmed(msg)`, is a prefix of the input and does not end with a line feed; an input not ending with a line feed, including one ending with `'\r'`, comes back unchanged |
| `Trim.Trimmed` | src/main.ts:22-24 | the value the loop leaves is a prefix of the input that does not end with a line feed |
| `Trim.TrimStep` | src/main.ts:23 | one pass drops exactly the last two characters, or yields the empty string when fewer than two remain |
| `Trim.Substring` | src/main.ts:23 | JavaScript `substring`: indices clamped to the string's length and swapped when out of order |
| `Trim.TrimmedIsTrimOf` | src/main.ts:22-24 | the loop's result meets the independent description: every longer prefix the loop passes through ends with a line feed, and the removed length is even unless the result is empty |
| `Trim.IsTrimOfUnique` | src/main.ts:22-24 | any string meeting that description is the loop's result |
| `Trim.TrimmedCharacterized` | src/main.ts:22-24 | `r` is the loop's result if and only if `r` meets the independent description |
| `Trim.TrimmedIdempotent` | src/main.ts:22-24 | trimming an already trimmed message changes nothing |
| `Trim.TrimExamples` | src/main.ts:22-23 | `"ab\n"` gives `"a"`, `"a\r\n"` gives `"a"`, `"\n\n"` and `"\n"` give `""`, `"a\r"` is unchanged, `"ab\n\n\n"` gives `"a"` |
| `Options.BuildClientOptions` | src/main.ts:42-51 | `rfc3164` holds exactly when `rfc5424` does not; the UDP bind address is `0.0.0.0` |
| `Options.BuildClientOptionsRoundTrip` | src/main.ts:42-52 | the host and the built options determine the configuration: port, hostname, transport, facility, severity and app name are copied, and the RFC flag is inverted |
| `Options.BuildClientOptionsInjective` | src/main.ts:42-51 | for one host, two configurations give the same options if and only if they are equal |
| `Instance.NotInitialisedText` | src/main.ts:36 | the warning for a dropped message ends with that message |
| `Instance.SentText` | src/main.ts:31 | the debug line for a sent message ends with that message |
| `Instance.SendFailureText` | src/main.ts:29 | the failure warning carries the message right after its fixed header |
| `Instance.ErrorEventText` | src/main.ts:58 | the error-event log line starts with the error's name |
| `Instance.DestroyText` | src/main.ts:69 | the destroy debug line carries the instance id right after `"destroy "` and ends with the instance label |
| `Instance.SyslogClient.constructor` | src/main.ts:16-18 | a new instance has no configuration, no transport, an empty queue, no status and no log lines |
| `Instance.SyslogClient.LogMessage` | src/main.ts:20-38 | with a transport, exactly one task holding the trimmed message and the caller's options is appended to the end of the queue and nothing is logged; without one, nothing is queued and exactly one warning holding the trimmed message is logged; status, handle and configuration are unchanged |
| `Instance.SyslogClient.RunNextTask` | src/main.ts:26-27 | the oldest task leaves the queue; its message and options are sent on the current transport, and the send awaits its callback; nothing else changes |
| `Instance.SyslogClient.OnSendComplete` | src/main.ts:26-33 | the callback of a started send fires once for that send: a failure logs one warning naming that send's message, and a success logs one debug line naming it; the send stops awaiting; queue, status and handle are unchanged |
| `Instance.SyslogClient.SetupSyslogClient` | src/main.ts:40-62 | the previous transport, if any, is closed exactly once, then one new transport is created for the host with the built options, and the status becomes Ok; queue and stored configuration are unchanged |
| `Instance.SyslogClient.ConfigUpdated` | src/main.ts:77-88 | the queue is always cleared and the configuration stored; with a non-empty host the transport is replaced as in `SetupSyslogClient`; with an empty host the status becomes BadConfig "No Host" and the handle is neither closed nor unset |
| `Instance.SyslogClient.Init` | src/main.ts:64-66 | the first configuration is applied exactly as `ConfigUpdated` applies it |
| `Instance.SyslogClient.Destroy` | src/main.ts:68-75 | one debug line is logged, the queue is cleared, the current transport, if any, is closed but still held, and the status becomes Disconnected |
| `Instance.SyslogClient.OnClose` | src/main.ts:53-56 | a close event, which only a created transport can fire, logs one warning "Client Closed" and sets Disconnected "Client Closed"; nothing else changes |
| `Instance.SyslogClient.OnError` | src/main.ts:57-60 | an error event, which only a created transport can fire, logs one error line and sets UnknownError with the error's name as message; nothing else changes |

## Left out

- Queue timing and concurrency: the concurrency cap, the 10 ms interval, the one-task-per-interval cap, asynchronous admission and awaiting a task's completion (src/main.ts:10, 26). The queue is a FIFO `seq`, and starting a task is the separate step `RunNextTask`.
- Sharing of the queue: the queue is one module-level object shared by every instance in a process. The model gives each instance its own queue, so one instance clearing the queue does not drop another instance's tasks here.
- Tasks in flight: clearing the queue drops only tasks that have not started. A send already started stays in `awaiting`, and its callback `OnSendComplete` can still fire after `ConfigUpdated` or `Destroy`. The model does not say when it fires.
- The syslog library: sockets, the UDP and TCP transports, RFC 5424 and RFC 3164 framing, and PRI computation. A handle is an opaque id with its host and options. `close()` is recorded in the ghost `closed` list. Whether closing a transport later fires its `close` event is the library's behaviour, not part of this model.
- The close and error handlers are modelled without the transport that fired them. The source does not check which handle fired, so a replaced transport's event also changes the status.
- Host-platform calls: the variable interpolation of `parseVariablesInString`, the internals of `updateStatus` and `log`, log-level gating, `runEntrypoint`, `updateActions`, `updateFeedbacks`, `updateVariableDefinitions` and `getConfigFields`. Status and log effects are recorded as values.
- The `.catch(() => {})` in `init`, and any exception `createClient` might throw. The model assumes that transport creation succeeds.
- JavaScript truthiness of `config.host`: the host is a `string`, and only the empty string counts as absent. An `undefined` host is not modelled.
- `Trim.TrimTrailingNewlines`: strings are sequences of Dafny characters, not UTF-16 code units. For a character outside the Basic Multilingual Plane the model therefore differs from the source. For `"😀\n"`, JavaScript's `substring(0, 1)` leaves a lone high surrogate, while `Trimmed` returns `""`.
- The form and action definitions in src/config.ts and src/actions.ts: they are UI metadata. The send action is a thin mapping onto `logMessage`.
- `Instance.SyslogClient.Destroy`: the handle is closed but kept. A later `ConfigUpdated` closes it again, so the invariant only promises that every replaced transport was closed at least once. "Exactly once" is stated per call of `SetupSyslogClient`.
