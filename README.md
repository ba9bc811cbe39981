# Console collection model

A Dafny model of the browser logs SDK's console collection, `startConsoleCollection`.
The collection wraps the console channels (`log`, `debug`, `info`, `warn`, `error`).
Every call still reaches the original channel.
While the collection is installed, a call may also be turned into log records for the sender:

- the general path fires when the channel is in `forwardConsoleLogs` and the `forward-logs` experimental flag is on;
- the error-forwarding path fires for `console.error` when `forwardErrorsToLogs` is set.

A record's message is the call's arguments joined by one space.
Its status follows the channel (`log` gives `info`).
General records carry `origin: "console"`.
Error-path records carry `error: {origin: "console", stack: undefined}`, and carry `origin: "console"` only when the flag is on.
The model assumes that the sender's console handler prints again only records that did not come from the console. Under that assumption each call is printed once.
`start` returns a `stop` handle that removes the wrappers; `noop` is also a valid handle.

The behaviour is taken from the collection's test suite, `packages/logs/src/domain/logsCollection/console/consoleCollection.spec.ts`; the implementation file is not part of this model. Where the suite does not decide a case, the model makes a choice, listed under "## Left out".

Files:

- `wrappers.dfy`: `Option`, standing for a property that may be `undefined`.
- `console_records.dfy` (module `ConsoleRecords`): pure record construction. `Forward` gives the records one call produces. `Join` builds the message, and `Split` is its proved inverse.
- `console_collection.dfy` (module `ConsoleCollection`): the state that changes.
  - `Sender` holds the handler set, the records sent and the records echoed through `display`.
  - `Interceptor` is the console with its wrappers. It holds the installed flag, the configuration, the flag value, the sender and the log of native calls.
  - `StopHandle` and `Release` model the `stop` handle.
- `collection_suite.dfy` (module `ConsoleCollectionSuite`): one method per test case. Each proves what the case expects from the contracts above.

## Model

| member | source | states |
|---|---|---|
| ConsoleRecords.Join | packages/logs/src/domain/logsCollection/console/consoleCollection.spec.ts:39-42 | the message is the arguments joined by a single space: empty for no arguments, otherwise as long as the arguments plus one space between each pair, and starting with the first argument |
| ConsoleRecords.SplitJoin | packages/logs/src/domain/logsCollection/console/consoleCollection.spec.ts:39-42 | cutting a message at its spaces gives back the arguments, for a non-empty argument list in which no argument holds a space (the join loses nothing; zero arguments and one empty argument both give the empty message) |
| ConsoleRecords.JoinSplit | packages/logs/src/domain/logsCollection/console/consoleCollection.spec.ts:39-42 | every string is the join of its space-separated pieces (the other direction of the inverse) |
| ConsoleRecords.StatusOf | packages/logs/src/domain/logsCollection/console/consoleCollection.spec.ts:43 | `log` maps to `info`; a record gets `error` severity exactly when it comes from `console.error` |
| ConsoleRecords.Forward | packages/logs/src/domain/logsCollection/console/consoleCollection.spec.ts:31-101 | records for one call: every message is the joined arguments; a general record (origin console, channel severity, no error object) exactly when the channel is configured and the flag is on; an error record exactly when `console.error` is called with `forwardErrorsToLogs`, with error `{origin: console, stack: undefined}` whatever the flag, and origin console exactly when the flag is on; at most one of each kind, the error record last; with the flag off nothing is sent except on the error channel, and nothing has an origin; every record is console-originated |
| ConsoleCollection.Sender.constructor | packages/logs/src/domain/logsCollection/console/consoleCollection.spec.ts:35 | a new sender has the given handlers and has sent and displayed nothing |
| ConsoleCollection.Sender.SetHandler | packages/logs/src/domain/logsCollection/console/consoleCollection.spec.ts:113 | replaces the handler set and nothing else |
| ConsoleCollection.Sender.Deliver | packages/logs/src/domain/logsCollection/console/consoleCollection.spec.ts:103-118 | the record is sent; it is echoed through `display` exactly when the console handler is active at that moment and the record is not console-originated. The cited lines show only the no-echo case, for one console-originated `log` record; the rest of the rule is the model's assumption |
| ConsoleCollection.Interceptor.constructor | packages/logs/src/domain/logsCollection/console/consoleCollection.spec.ts:22-23 | before start, no wrapper is installed and no native call has happened |
| ConsoleCollection.Interceptor.Start | packages/logs/src/domain/logsCollection/console/consoleCollection.spec.ts:33-36 | installs the wrappers with the given configuration, flag and sender, opens a new session, and returns the handle that removes that session's wrappers |
| ConsoleCollection.Interceptor.Stop | packages/logs/src/domain/logsCollection/console/consoleCollection.spec.ts:26-29 | removes the wrappers; on a console with nothing installed it changes nothing |
| ConsoleCollection.Interceptor.Invoke | packages/logs/src/domain/logsCollection/console/consoleCollection.spec.ts:39-47 | the original channel is called exactly once. While installed, the sender's sent records grow by exactly Forward's records. Its `display` echoes do not change, whatever handlers it has at call time. Once stopped, the sender is untouched |
| ConsoleCollection.Release | packages/logs/src/domain/logsCollection/console/consoleCollection.spec.ts:17-29 | calling the handle of the installed session uninstalls the wrappers; `noop`, a second call of a handle, and a handle kept from an earlier session touch nothing |
| ConsoleCollectionSuite.SendsConsoleLogsWhenFlagOn | packages/logs/src/domain/logsCollection/console/consoleCollection.spec.ts:31-48 | `console.log('foo', 'bar')` sends exactly `{message: 'foo bar', status: info, origin: console}` and reaches `console.log` once |
| ConsoleCollectionSuite.NoConsoleLogsWhenFlagOff | packages/logs/src/domain/logsCollection/console/consoleCollection.spec.ts:50-61 | with the flag off, nothing is sent and `console.log` is still called |
| ConsoleCollectionSuite.ConsoleErrorRecord | packages/logs/src/domain/logsCollection/console/consoleCollection.spec.ts:63-101 | the last record sent for `console.error('foo', 'bar')` has origin console when the flag is on and no origin when it is off; its error is `{origin: console, stack: undefined}` either way |
| ConsoleCollectionSuite.NoDoublePrintWithConsoleHandler | packages/logs/src/domain/logsCollection/console/consoleCollection.spec.ts:103-119 | with the console handler set after start, one call means one native call and no `display` echo |
| ConsoleCollectionSuite.StopRemovesInterception | packages/logs/src/domain/logsCollection/console/consoleCollection.spec.ts:17-29 | after the stop handle is called, twice, calls are only passed through and nothing is sent; a `noop` handle is harmless |
| ConsoleCollectionSuite.StaleHandleKeepsLaterSession | packages/logs/src/domain/logsCollection/console/consoleCollection.spec.ts:17-36 | the handle of a stopped session, called after a new start, leaves the new session installed and forwarding |

## Left out

- Replacing the global `console` object: a channel is an enum value and the wrappers are the `installed` flag.
- The experimental-feature registry: the `forward-logs` flag is a boolean given to `Start` and read once there. The suite sets it before start; its teardown resets it while the collection is still installed, just before calling stop, with no console call in between, so no call can observe the change.
- `validateAndBuildLogsConfiguration`: the configuration is a plain value holding the forwarded channel set and `forwardErrorsToLogs`.
- `createSender` and the transport behind the send function: the sender keeps only its handler set, the records it was handed, and the records its console handler echoed. Every scenario builds its sender with the `Http` handler, standing for the default of `createSender`; the one scenario that changes handlers sets the console handler alone.
- Formatting of non-string arguments and stack extraction from real `Error` objects: arguments are strings, and `stack` is always absent.
- Starting the collection twice without stopping is not supported: `Start` requires the wrappers to be absent.
- The message of error-path records is not asserted by the suite. The model uses the same space-joined message as the general path.
- Severities for `debug`, `info` and `warn` follow the channel names. The suite asserts only `log` to `info`.
- A `console.error` call with `error` in `forwardConsoleLogs`, the flag on and `forwardErrorsToLogs` set fires both paths. No test makes that call. The model's own choice is to send two records, the general one first and the error record last.
- ConsoleCollection.Sender.Deliver: the echo rule is the model's assumption about the sender, which is not part of this model. It echoes only records that have neither `origin` nor `error.origin` equal to "console". The suite shows only that one console-originated `log` record is not echoed (lines 103-118). So the no-echo clause of `ConsoleCollection.Interceptor.Invoke` and the result of `ConsoleCollectionSuite.NoDoublePrintWithConsoleHandler` rest on this rule, including for error-path records sent with the flag off.
- ConsoleCollection.Sender.Deliver: a record is added to `sent` whatever the handler set is, even under the console handler alone (line 113). The suite never asserts this; it is the model's choice.
- ConsoleCollectionSuite.ConsoleErrorRecord: its `status == error` clause is the model's choice. The suite never asserts the status of error-path records.
- ConsoleCollection.Release: that a handle kept from an earlier session leaves a later session installed is the model's choice. The suite only takes a fresh handle from each start (line 33) and never exercises a stale one. `ConsoleCollectionSuite.StaleHandleKeepsLaterSession` rests on the same choice.
- Error-path records carry the error object whether or not the flag is on, because the suite checks that object with the flag off (lines 88-101). A design that includes it only when the flag is on would contradict that test.
