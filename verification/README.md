# CallTool dispatcher and structured logger of a tool-call server

This project models, in Dafny, the two pieces of sequential logic at the heart
of a tool-invocation protocol server:

- **the CallTool request handler** (`src/server/toolHandlerSetup.ts`): it looks
  a tool up in the handler registry, calls it, shapes the reply (with a special
  case for the `chat_perplexity` tool, whose result is wrapped with a chat id),
  classifies failures into soft payloads or raised protocol errors, logs every
  stage, and clears its watchdog timer in a `finally` block;
- **the response summariser** `createResponseSummary`, which turns a result into
  a bounded preview for the log;
- **the structured logger** (`src/utils/logging.ts`): the level and colour
  tables, the console line, the JSON file record `{timestamp, level, message,
  ...data}` and the one-line file write of each `logInfo`, `logWarn`, `logError`
  call.

Everything is a pure function. The handler's asynchronous work is represented
by its outcome (`Ok(result)`, `Err(message)` for a thrown `Error`, `Thrown(value)`
for any other thrown value); the console and the log stream by the list of
effects a logger call performs; the dispatcher's logging by the list of logger
calls it makes; the watchdog timer by a pending flag. Values outside the model
are parameters: both clock readings of a logger call, `JSON.stringify`
(compact, and pretty-printed for the chat payload), `crypto.randomUUID()`, and
the message text of the protocol library's `McpError`.

Modules: `Wrappers` (Option, Result), `Strings` (`String.prototype.includes`),
`Values` (JavaScript values, truthiness, `String(v)`), `Logging`,
`ResponseSummary`, `ToolDispatch`.

The model follows the code, including in these easily mistaken points:

- An unknown tool name is **not** raised as `MethodNotFound`. The code throws that
  `McpError` inside its own `try`, so the `catch` handles it like any `Error`
  and returns a soft payload — the timed-out text if the name itself contains
  "timeout" (`ToolDispatch.UnknownToolIsSoft`). The only error ever raised is
  `InternalError`, for a thrown non-`Error` value.
- A missing request id becomes the literal `"unknown"`, not a fresh token.
- The string summary limit is 200 characters and the JSON limit 300, both with
  the marker `"... (truncated)"`.

## Model

| member | source | states |
|---|---|---|
| `Strings.IncludesIsContains` | src/server/toolHandlerSetup.ts:110 | The substring scan used for `includes` answers true exactly when the pattern occurs at some position (case-sensitive; the empty pattern always occurs). |
| `Values.ToJsStringFacts` | src/server/toolHandlerSetup.ts:134 | `String(v)` of a thrown value: a string is printed as itself, and an integer of magnitude below 10^21 in decimal that reads back to the same number (sign first when negative). |
| `Logging.LevelName` | src/utils/logging.ts:33-37 | The level table yields only the literals INFO, WARN and ERROR. |
| `Logging.LevelColor` | src/utils/logging.ts:39-44 | The colour table yields a five-character ANSI colour sequence for each level; which colour each level gets is pinned by `LogInfo`, `LogWarn` and `LogError`. |
| `Logging.LevelTablesInjective` | src/utils/logging.ts:33-44 | Distinct levels get distinct names and distinct colours. |
| `Logging.ConsoleLine` | src/utils/logging.ts:58 | The console line is, piece by piece and with nothing else, the level's colour, "[", the timestamp, "] [", the level name, "] ", the message and the reset sequence. |
| `Logging.ConsoleLineInjective` | src/utils/logging.ts:58 | For timestamps of one length, the console line determines level, timestamp and message: two equal lines come from equal inputs. |
| `Logging.ConsoleArgs` | src/utils/logging.ts:57-60 | The console call gets the line, plus the data record as a second argument exactly when data is present. |
| `Logging.DataNotInterpolated` | src/utils/logging.ts:58-59 | The console line is the same with or without data: data is never interpolated into it. |
| `Logging.FileRecord` | src/utils/logging.ts:23-28 | The record's keys are exactly timestamp, level, message and the data keys; exactly three keys without data; data values win on collision; base fields keep their values when data does not name them. |
| `Logging.FileText` | src/utils/logging.ts:29 | The written text is the serialised record followed by one newline. |
| `Logging.FileTextIsOneLine` | src/utils/logging.ts:29 | If the serialised record has no raw newline, the written text has exactly one newline, at its end. |
| `Logging.Log` | src/utils/logging.ts:52-64 | One logger call makes exactly one console call on the method named by the level and exactly one file write of the record built with the level's name; the two timestamps are independent. |
| `Logging.LogInfo` | src/utils/logging.ts:67-69 | `logInfo` calls the info console method with the console line, which starts in blue (`ESC[34m`), and writes a record with level "INFO". |
| `Logging.LogWarn` | src/utils/logging.ts:71-73 | `logWarn` calls the warn console method with the console line, which starts in yellow (`ESC[33m`), and writes a record with level "WARN". |
| `Logging.LogError` | src/utils/logging.ts:75-77 | `logError` calls the error console method with the console line, which starts in red (`ESC[31m`), and writes a record with level "ERROR". |
| `Logging.LogAll` | src/utils/logging.ts:52-64 | A run of n logger calls makes exactly n console calls and n file writes. |
| `Logging.LogAllWritesInOrder` | src/utils/logging.ts:22-30 | The texts a run of logger calls writes to the file are exactly its calls' record lines, one per call, in call order, each built with that call's own file timestamp. |
| `ResponseSummary.Truncate` | src/server/toolHandlerSetup.ts:26-28 | Text within the limit is unchanged; longer text keeps its first `limit` characters followed by the marker, `limit` + 15 characters in all. |
| `ResponseSummary.TruncateIdempotent` | src/server/toolHandlerSetup.ts:26-28 | Truncating a truncated text changes nothing. |
| `ResponseSummary.Summarize` | src/server/toolHandlerSetup.ts:24-39 | The summary never fails and is at most 315 characters long, at most 215 for a string. |
| `ResponseSummary.SummaryOfString` | src/server/toolHandlerSetup.ts:25-28 | A string of at most 200 characters is its own summary; a longer one becomes its first 200 characters plus "... (truncated)", 215 characters. |
| `ResponseSummary.SummaryOfOther` | src/server/toolHandlerSetup.ts:31-38 | A non-string is summarised by its JSON text, cut at 300 characters with the marker; failed serialisation gives "[Unserializable content]". |
| `ToolDispatch.RequestId` | src/server/toolHandlerSetup.ts:58 | The request id is the transport's id when truthy, otherwise the literal "unknown". |
| `ToolDispatch.ChatId` | src/server/toolHandlerSetup.ts:73-74 | The chat id is the caller's `chat_id` argument when truthy, otherwise the fresh UUID. |
| `ToolDispatch.TryBlock` | src/server/toolHandlerSetup.ts:67-99 | The `try` block completes normally exactly when the tool is registered, its handler returns a result and, for the chat tool, the payload serialises; it leaves the timer alone, logs one INFO call when it completes normally and nothing when it throws, and throws a non-`Error` only when a registered handler did. |
| `ToolDispatch.CatchBlock` | src/server/toolHandlerSetup.ts:100-135 | The `catch` block leaves the timer alone, appends one or two ERROR calls to the log, the first carrying the `Error` message or `String(value)` of any other thrown value as `error`, and raises exactly when the caught value is not an `Error`. |
| `ToolDispatch.HandleCallTool` | src/server/toolHandlerSetup.ts:56-139 | Every request logs the INFO receipt event first and two or three calls in all; the timer is not pending at the end (the flag is checked only at exit); a raised error is always `InternalError`; a reply has exactly one text item. |
| `ToolDispatch.RegisteredToolSucceeds` | src/server/toolHandlerSetup.ts:67-97 | A registered non-chat tool that returns a result gives one text item carrying the result unchanged, logged with its summary; the handler is called with `args` or `{}`. |
| `ToolDispatch.ChatToolSucceeds` | src/server/toolHandlerSetup.ts:72-88 | The chat tool's reply text is the pretty JSON of `{chat_id, response}`; the chat id is the caller's when truthy, else the fresh UUID; the logged summary is that text cut at 200 characters. |
| `ToolDispatch.TimeoutErrorIsSoft` | src/server/toolHandlerSetup.ts:101-119 | An `Error` whose message contains "timeout" or "Timed out" gives the fixed timed-out text and nothing is raised; it is logged by two ERROR calls: "Error executing tool <name>" carrying the message, then "Timeout detected in MCP request" with the request id and tool. |
| `ToolDispatch.OtherErrorIsSoft` | src/server/toolHandlerSetup.ts:107-129 | Any other `Error` gives "The operation encountered an error: " + message + ". Please try again." after exactly one ERROR call, "Error executing tool " + name, whose `error` is the message. |
| `ToolDispatch.CapitalTimeoutIsNotTimeout` | src/server/toolHandlerSetup.ts:110 | The timeout match is case-sensitive: an `Error` reading "Timeout" gets the generic error text. |
| `ToolDispatch.NonErrorIsRaised` | src/server/toolHandlerSetup.ts:132-135 | A thrown non-`Error` value is raised as `InternalError` with "Tool execution failed: " + `String(value)`, after exactly one ERROR call whose `error` is `String(value)`. |
| `ToolDispatch.ChatSerialisationFailureIsSoft` | src/server/toolHandlerSetup.ts:78-129 | A chat payload whose serialisation throws is not a success: the ERROR call carries the thrown message and the reply is the timed-out or generic error text. |
| `ToolDispatch.RaisedIffNonErrorThrown` | src/server/toolHandlerSetup.ts:100-135 | A request raises an error exactly when a registered handler throws a non-`Error` value. |
| `ToolDispatch.UnknownToolIsSoft` | src/server/toolHandlerSetup.ts:99-130 | An unknown tool gets a soft payload after an ERROR call carrying the `McpError` message; a message with no timeout mention gets the generic error text embedding it; when the message contains "Tool <name> not found" and the name contains "timeout", the payload is the timed-out text. |
| `ToolDispatch.MissingArgsAreEmpty` | src/server/toolHandlerSetup.ts:69 | Omitting the arguments and passing `{}` give the same reply. |

## Left out

- The watchdog timer's callback (src/server/toolHandlerSetup.ts:63-65): whether the advisory WARN fires depends on timing, so only the pending flag is modelled, set before the `try` and cleared in the `finally`; contracts state only that it is cleared at exit, not that it is armed while the handler runs.
- Asynchronous suspension and concurrent requests: a request is one pure function from inputs to reply and log.
- The log file setup at module load (directory creation, append-mode stream): file-system I/O.
- `new Date().toISOString()`, `crypto.randomUUID()`, and the real console and stream writes: parameters or effect lists instead.
- `JSON.stringify` (compact and pretty-printed): abstract parameters; the model does not check that output is valid JSON or that it parses back to the record.
- The protocol library's `McpError` message format: an abstract function of code and text; `ToolDispatch.UnknownToolIsSoft` assumes only that the message contains the text it was given.
- The error codes `MethodNotFound` (-32601) and `InternalError` (-32603) are taken from section 5.1 of the JSON-RPC 2.0 specification, since the protocol library is not part of this model.
- The registry is a finite map: JavaScript lookups that reach the object prototype (such as the name "toString") are not modelled.
- Uniqueness of generated chat ids: `crypto.randomUUID()` is a single parameter per request, so freshness across requests is not modelled.
- The ListTools handler, the tool schema catalogue and `createToolHandlersRegistry`: no logic beyond returning their input.
- Key order of the JSON record: the record is a map, so where a colliding data key sits in the serialised text is not modelled.
- Values.ToJsStringFacts: states the decimal read-back only for magnitudes below 10^21, because JavaScript prints larger numbers in exponent form (`String(1e21)` is "1e+21") while `ToJsString` prints every integer in plain decimal; integers beyond 2^53 have no exact JavaScript number at all, and the model does not bound `Num` to that range.
- Numbers are integers: floating point values, `NaN` and their `String` forms are not modelled; nor are symbols, functions or objects with their own `toString`.
- String lengths count Unicode scalar values, not UTF-16 code units, so truncation of text with characters outside the Basic Multilingual Plane may differ by position.
- A non-`Error` thrown by `JSON.stringify` while building the chat payload: the pretty serialiser's failures are modelled as `Error` messages only.
