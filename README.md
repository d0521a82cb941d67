# ok_logger in Dafny

A model of `ok_logger`, the client-side logging facade of a Lightning Web
Components front end. A component asks `getLogger({ component, name,
namespace })` for a `LightningLogger`. The logger's seven level methods
(`error` … `finest`) each make a `Log` entry bound to the module's global
`Transaction`. `Log.log(message)` then does four things:

- it resolves a display name;
- it awaits the transaction id;
- it builds a payload with the facade version `0.1-beta`;
- it sends the payload to the Apex backend with `apexLog`, and mirrors the
  backend's console message to the browser console when the response asks
  for it.

The files:

- `outcomes.dfy` (module `Outcomes`): optional values (`undefined`), the
  three ways an Apex call can end (`Returned`, `RejectedAsync`,
  `ThrewSync`), and how a promise settles.
- `search_params.dfy` (module `SearchParams`): `getSearchParamsAsObject`.
  It is the `reduce` fold of decoded query pairs into a plain object. The
  object is modelled as its properties in insertion order. Keys and values
  are strings in the source; the fold only compares keys, so the module
  keeps their types generic. The module also holds the fold's properties.
- `ok_logger.dfy` (module `OkLogger`): the levels and the console switch,
  name resolution, the payload, and `getId` and `log` as specification
  functions (`ResolveId`, `DispatchLog`). It also holds the classes
  `Transaction`, `Log`, `LightningLogger` and `LoggerModule`. The class
  methods are proved against those functions.
- `ok_logger_properties.dfy` (module `OkLoggerProperties`): what a dispatch
  does, stated over the trace of calls and console writes it records.

The outside world is an input. The `World` datatype supplies:

- the decoded query pairs and the `window.location` snapshot;
- the outcome of `createTransactionId` and the ISO time stamp;
- the outcome of `apexLog`;
- the `this` that `getConsoleLogFunction` reads.

What the model sends out or writes is recorded, in order, as `Event`s:
remote calls, the fallback's `console.error`, and the mirrored console
write.

Where the code differs from what it evidently means to do (resolve an id
once, cache it, and absorb every remote failure; pick the console channel
from the entry's level), the model follows the code:

- `getId` does not cache. A remote id is returned but never stored, and
  every call goes to the remote service again.
- `getId` returns the remote promise without `await`. A rejected promise
  therefore escapes the `catch` and rejects `getId`, and with it `log`.
  Only a synchronous throw reaches the fallback `lightning-<timestamp>`,
  which is stored in `id` and returned.
- `getConsoleLogFunction` declares no parameter. The argument of
  `getConsoleLogFunction(this.logLevel)` at `ok_logger.js` line 97 is
  ignored, and the switch reads `this.logLevel` of the module scope. The
  channel is therefore the same for every entry, whatever its level
  (`DispatchChannelIgnoresEntryLevel`). The switch itself is modelled
  as a function of a level value (`ConsoleFunctionFor`). The module's
  `this` is an input:
  - `UndefinedThis`: the value in an ES module. Reading `logLevel` off it
    is a TypeError, so `log` rejects, after `apexLog` has been called,
    whenever the response asks for mirroring.
  - `ThisObject(logLevel)`: the value in a bundle that wraps the module in
    a function.

## Model

| member | source | states |
|---|---|---|
| SearchParams.Put | src/lwc/ok_logger/ok_logger.js:104-107 | no contract; one fold step, whose properties are `PutKeepsPositions`, `PutLookup` and `PutKeepsKeysDistinct` |
| SearchParams.PutKeepsPositions | src/lwc/ok_logger/ok_logger.js:104-107 | one fold step `{...params, [key]: value}` keeps every existing key where it stands, and appends the key (with its value) only when it is new |
| SearchParams.PutLookup | src/lwc/ok_logger/ok_logger.js:104-107 | after one fold step the key reads as the new value and every other key reads as before |
| SearchParams.PutKeepsKeysDistinct | src/lwc/ok_logger/ok_logger.js:104-107 | one fold step keeps the object's keys distinct |
| SearchParams.Flatten | src/lwc/ok_logger/ok_logger.js:102-109 | the flattened object has each key of the query string exactly once, and no other key; empty input gives the empty object |
| SearchParams.FlattenLastOccurrenceWins | src/lwc/ok_logger/ok_logger.js:102-109 | each key maps to the value of its last occurrence in the query string |
| SearchParams.FlattenAbsentKey | src/lwc/ok_logger/ok_logger.js:102-109 | a key not in the query string is absent from the object |
| SearchParams.FlattenKeepsFirstOccurrenceOrder | src/lwc/ok_logger/ok_logger.js:102-109 | keys appear in the order of their first occurrence in the query string |
| SearchParams.FlattenExample | src/lwc/ok_logger/ok_logger.js:102-109 | `a=1&b=2&a=3` gives `{a: "3", b: "2"}` |
| OkLogger.Level.Tag | src/lwc/ok_logger/ok_logger.js:26-52 | no contract; the tags passed to `createLog`; that they are pairwise different is `LevelTagsDistinct`, and their channels are `ConsoleFunctionForLevel` |
| OkLogger.ConsoleFunctionFor | src/lwc/ok_logger/ok_logger.js:111-121 | the switch is total: ERROR, WARN and DEBUG (and only they) get the error, warn and debug channels; every other value, `undefined` included, gets `console.log` |
| OkLogger.ModuleLogLevel | src/lwc/ok_logger/ok_logger.js:112 | reading `this.logLevel` in the module scope fails exactly when the module's `this` is `undefined`, and otherwise yields that object's `logLevel` |
| OkLogger.ComponentName | src/lwc/ok_logger/ok_logger.js:77 | the optional chain yields a name only when the component, its template and its host are all present, and then it is the host's `localName` |
| OkLogger.DisplayName | src/lwc/ok_logger/ok_logger.js:77-78 | a present, non-empty host tag name is the display name; otherwise it is the logger's name, which may be `undefined` |
| OkLogger.FallbackId | src/lwc/ok_logger/ok_logger.js:13 | the fallback id is `lightning-` followed by the time stamp, unchanged |
| OkLogger.ResolveId | src/lwc/ok_logger/ok_logger.js:7-16 | `getId` calls the remote service first and exactly once. A returned id is passed through. It rejects exactly when the remote promise rejects, and then with the remote's own reason. A synchronous throw writes `console.error`, stores the fallback id in `id` and returns it. On every other path `id` is unchanged and the only call is the remote one |
| OkLogger.PayloadFor | src/lwc/ok_logger/ok_logger.js:79-92 | no contract; the `data` object, whose fields are stated by `DispatchPayloadFields` |
| OkLogger.DispatchLog | src/lwc/ok_logger/ok_logger.js:75-99 | no contract; `log` as a function, whose behaviour is stated by `DispatchSendsOnePayloadAfterTheId`, `DispatchTraceOrder`, `DispatchPayloadFields`, `DispatchMirrorsOnlyWhenEnabled`, `DispatchChannelIgnoresEntryLevel` and `DispatchRejectsWhen` |
| OkLogger.Transaction.constructor | src/lwc/ok_logger/ok_logger.js:125 | a new transaction has no id |
| OkLogger.Transaction.GetId | src/lwc/ok_logger/ok_logger.js:7-16 | the promise, the calls made and the new `id` are those of `ResolveId` on the old `id` |
| OkLogger.NewTransaction | src/lwc/ok_logger/ok_logger.js:125 | `newTransaction` returns a freshly allocated transaction with no id |
| OkLogger.Log.constructor | src/lwc/ok_logger/ok_logger.js:65-71 | the entry keeps level, component, name and namespace, and is bound to the given transaction, or to the global one when none is given |
| OkLogger.Log.Log | src/lwc/ok_logger/ok_logger.js:75-99 | `log(message)` settles, calls and writes as `DispatchLog` says, and leaves the transaction's `id` as `getId` does |
| OkLogger.LightningLogger.constructor | src/lwc/ok_logger/ok_logger.js:20-24 | the logger keeps the component, name and namespace of its options |
| OkLogger.LightningLogger.CreateLog | src/lwc/ok_logger/ok_logger.js:54-61 | a fresh entry with the given level and the logger's fields, bound to the global transaction because none is passed |
| OkLogger.LightningLogger.Error | src/lwc/ok_logger/ok_logger.js:26-28 | a fresh entry with level ERROR and the logger's fields; the logger is unchanged |
| OkLogger.LightningLogger.Warn | src/lwc/ok_logger/ok_logger.js:30-32 | a fresh entry with level WARN and the logger's fields; the logger is unchanged |
| OkLogger.LightningLogger.Info | src/lwc/ok_logger/ok_logger.js:34-36 | a fresh entry with level INFO and the logger's fields; the logger is unchanged |
| OkLogger.LightningLogger.Debug | src/lwc/ok_logger/ok_logger.js:38-40 | a fresh entry with level DEBUG and the logger's fields; the logger is unchanged |
| OkLogger.LightningLogger.Fine | src/lwc/ok_logger/ok_logger.js:42-44 | a fresh entry with level FINE and the logger's fields; the logger is unchanged |
| OkLogger.LightningLogger.Finer | src/lwc/ok_logger/ok_logger.js:46-48 | a fresh entry with level FINER and the logger's fields; the logger is unchanged |
| OkLogger.LightningLogger.Finest | src/lwc/ok_logger/ok_logger.js:50-52 | a fresh entry with level FINEST and the logger's fields; the logger is unchanged |
| OkLogger.LoggerModule.constructor | src/lwc/ok_logger/ok_logger.js:127 | loading the module makes one fresh global transaction with no id |
| OkLogger.LoggerModule.GetLogger | src/lwc/ok_logger/ok_logger.js:123 | `getLogger(opts)` returns a fresh logger with the options' fields, bound to the global transaction |
| OkLogger.LoggerModule.GetTransaction | src/lwc/ok_logger/ok_logger.js:124 | `getTransaction` returns the one global transaction on every call |
| OkLoggerProperties.ResolveIdSendsNothing | src/lwc/ok_logger/ok_logger.js:7-16 | resolving the id neither calls `apexLog` nor writes a mirrored message |
| OkLoggerProperties.ResolveIdIgnoresStoredId | src/lwc/ok_logger/ok_logger.js:7-16 | no caching: the result and the calls of `getId` do not depend on the stored `id` |
| OkLoggerProperties.ResolveIdNotIdempotent | src/lwc/ok_logger/ok_logger.js:9 | two calls on one transaction can resolve to two different ids |
| OkLoggerProperties.LevelTagsDistinct | src/lwc/ok_logger/ok_logger.js:26-52 | the seven level tags are pairwise different |
| OkLoggerProperties.ConsoleFunctionForLevel | src/lwc/ok_logger/ok_logger.js:111-121 | applied to a level's tag, the switch maps ERROR, WARN and DEBUG to their own channels and INFO, FINE, FINER and FINEST to `console.log` |
| OkLoggerProperties.DisplayNameExample | src/lwc/ok_logger/ok_logger.js:77-78 | a host tag `c-widget` wins over the logger name `fallbackName` |
| OkLoggerProperties.DispatchSendsOnePayloadAfterTheId | src/lwc/ok_logger/ok_logger.js:84-95 | `log` resolves the id before anything else. It then calls `apexLog` exactly once, with the payload built from the resolved id. It does not call it at all when resolution rejected. It leaves `id` as resolution left it |
| OkLoggerProperties.DispatchTraceOrder | src/lwc/ok_logger/ok_logger.js:84-97 | when resolution rejects, the trace is the resolution's and nothing more. Otherwise the first event after the resolution is the one `apexLog` call, and every later event is a console write. So `createTransactionId` is called once per `log`, and the mirror write comes after the backend call |
| OkLoggerProperties.DispatchPayloadFields | src/lwc/ok_logger/ok_logger.js:79-92 | the payload carries the display name, the level tag, the message and the namespace unchanged. It also carries the resolved transaction id, version `0.1-beta`, and the location with its flattened search params |
| OkLoggerProperties.DispatchMirrorsOnlyWhenEnabled | src/lwc/ok_logger/ok_logger.js:96-98 | the console gets one write of `webConsoleLog` exactly when the id resolved, `apexLog` fulfilled with the flag set and the module's `this` is an object. Otherwise nothing is mirrored; the fallback's `console.error` is a separate write |
| OkLoggerProperties.DispatchChannelIgnoresEntryLevel | src/lwc/ok_logger/ok_logger.js:97-112 | the mirrored writes are the same whatever the entry's level, because the switch never sees it |
| OkLoggerProperties.DispatchRejectsWhen | src/lwc/ok_logger/ok_logger.js:75-99 | `log` rejects exactly when the remote id promise rejects, `apexLog` fails, or mirroring is requested while the module's `this` is `undefined`. It rejects with the id call's own reason, else with `apexLog`'s reason, else with the TypeError |
| OkLoggerProperties.LoggerEntriesShareGlobalTransaction | src/lwc/ok_logger/ok_logger.js:54-70 | two entries from a module logger are distinct, and both are bound to the transaction `getTransaction` returns |

## Left out

- The Apex calls `createTransactionId` and `apexLog` are remote I/O. Their outcomes are inputs (`World.remoteId`, `World.apexResult`).
- `window.location`, `new URL(...)` and `URLSearchParams` are browser parsing, following the application/x-www-form-urlencoded parser of section 5.1 of the WHATWG URL Standard. The decoded pairs and the location fields are inputs.
- The href parsed at line 76 is read before the `await` of line 84. The location spread at line 88 is read after it. Both are taken as given, so a navigation in between is not modelled.
- The location object's `ancestorOrigins` property is not a field of `Location`. Only its string properties are.
- `JSON.stringify` and `JSON.parse` are library serialisation. The payload stays a structured `Payload`. A property that is `undefined` (a missing name or namespace) is kept as `None` rather than dropped from the string.
- `new Date().toISOString()` is the wall clock. The time stamp is an opaque string input.
- The `console.*` calls are side effects. They are recorded as `Event`s and not performed.
- Concurrent `getId` calls interleaving across `await`s are not modelled, because the code has no cache for a race to affect.
- `addError` is an empty no-op and has nothing to state.
- JavaScript lists integer-like object keys first, in ascending order. The first-occurrence order of `FlattenKeepsFirstOccurrenceOrder` assumes keys that are not integer-like.
- `message` and the module scope's `logLevel` can be any JavaScript value. They are modelled as strings (`Option<string>` for `logLevel`), and a non-string level goes to `console.log` either way.
- OkLogger.LightningLogger.CreateLog: takes a `Level`, one of the seven tags. In JavaScript `createLog` is public and accepts any `logLevel` value. Every call in the file passes one of the seven, and an arbitrary level string would only reach the payload's `logLevel` field.
- Calling `getLogger()` without an options object throws while destructuring. The model always takes a `LoggerOptions` value.
