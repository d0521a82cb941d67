/** The client-side logging facade of `ok_logger.js`.

    The two Apex calls (`createTransactionId`, `apexLog`), the browser's
    `window.location`, the wall clock and the console are not called here:
    what they return is an input (`World`), and what is sent to them or
    written on them is recorded, in order, as a trace of `Event`s. */
module OkLogger {
  import opened Outcomes
  import opened SearchParams

  /** `VERSION`: the facade version carried by every payload. */
  const Version: string := "0.1-beta"

  /** The prefix of the locally made transaction id. */
  const FallbackPrefix: string := "lightning-"

  /** The seven levels, one per level method of `LightningLogger`. */
  datatype Level = ERROR | WARN | INFO | DEBUG | FINE | FINER | FINEST
  {
    /** The string tag the level method passes to `createLog`. */
    function Tag(): (tag: string)
    {
      match this
      case ERROR => "ERROR"
      case WARN => "WARN"
      case INFO => "INFO"
      case DEBUG => "DEBUG"
      case FINE => "FINE"
      case FINER => "FINER"
      case FINEST => "FINEST"
    }
  }

  /** The console functions a backend-requested message can go to. */
  datatype Channel = ErrorChannel | WarnChannel | DebugChannel | LogChannel

  /** `getConsoleLogFunction`: the switch on a level value. Exactly three
      tags have a channel of their own; every other value, `undefined`
      included, goes to `console.log`. */
  function ConsoleFunctionFor(logLevel: Option<string>): (c: Channel)
    ensures c == ErrorChannel <==> logLevel == Some("ERROR")
    ensures c == WarnChannel <==> logLevel == Some("WARN")
    ensures c == DebugChannel <==> logLevel == Some("DEBUG")
    ensures c == LogChannel <==> logLevel !in {Some("ERROR"), Some("WARN"), Some("DEBUG")}
  {
    match logLevel
    case Some("ERROR") => ErrorChannel
    case Some("WARN") => WarnChannel
    case Some("DEBUG") => DebugChannel
    case _ => LogChannel
  }

  /** The `this` that `getConsoleLogFunction` sees. It is an arrow function
      declared at the top level of the module, so its `this` is the module's
      own: `undefined` in an ES module, or some object in a bundle that
      wraps the module in a function. */
  datatype ModuleThis = UndefinedThis | ThisObject(logLevel: Option<string>)

  /** Evaluating `this.logLevel` in the module scope. Reading a property of
      `undefined` throws a TypeError. */
  function ModuleLogLevel(t: ModuleThis): (r: Settled<Option<string>>)
    ensures r.Rejected? <==> t == UndefinedThis
    ensures t.ThisObject? ==> r == Fulfilled(t.logLevel)
  {
    match t
    case UndefinedThis => Rejected(LogLevelOfUndefined)
    case ThisObject(level) => Fulfilled(level)
  }

  /** The parts of a Lightning component that name resolution reads. */
  datatype Host = Host(localName: Option<string>)
  datatype Template = Template(host: Option<Host>)
  datatype Component = Component(template: Option<Template>)

  /** `this.component?.template?.host?.localName`: `undefined` as soon as a
      link of the chain is missing. */
  function ComponentName(c: Option<Component>): (r: Option<string>)
    ensures r.Some? ==> c.Some? && c.value.template.Some? && c.value.template.value.host.Some?
    ensures c.Some? && c.value.template.Some? && c.value.template.value.host.Some? ==>
      r == c.value.template.value.host.value.localName
  {
    match c
    case None => None
    case Some(component) =>
      match component.template
      case None => None
      case Some(template) =>
        match template.host
        case None => None
        case Some(host) => host.localName
  }

  /** `componentName || this.name`: a non-empty tag name of the component's
      host element wins; otherwise the logger's name, which may itself be
      `undefined`. */
  function DisplayName(c: Option<Component>, name: Option<string>): (r: Option<string>)
    ensures ComponentName(c).Some? && ComponentName(c).value != "" ==> r == ComponentName(c)
    ensures r != name ==> r == ComponentName(c) && r.Some? && r.value != ""
  {
    match ComponentName(c)
    case Some(tag) => if tag != "" then Some(tag) else name
    case None => name
  }

  /** The own properties of `window.location` that `JSON.stringify` keeps. */
  datatype Location = Location(
    href: string, origin: string, protocol: string, host: string, hostname: string,
    port: string, pathname: string, search: string, hash: string)

  /** `web.location` of the payload: the location spread first, then
      `searchParams`. */
  datatype WebLocation = WebLocation(location: Location, searchParams: ParamObject<string, string>)

  /** The `data` object serialised and sent to `apexLog`. */
  datatype Payload = Payload(
    name: Option<string>,
    logLevel: string,
    message: string,
    namespace: Option<string>,
    transactionId: string,
    version: string,
    web: WebLocation)

  /** What `apexLog` resolves to. */
  datatype ApexResponse = ApexResponse(isWebConsoleDebugEnabled: bool, webConsoleLog: string)

  /** What one dispatch sends out or writes, in order. */
  datatype Event =
    | CreateTransactionIdCalled                  // `createTransactionId()`
    | ConsoleErrorWritten(reason: string)        // `console.error(e)` in the fallback
    | ApexLogCalled(data: Payload)               // `apexLog({ data })`
    | ConsoleWritten(channel: Channel, text: string)  // the mirrored message

  /** Everything from outside the module that one call of `log` consumes.
      `searchPairs` are the decoded pairs of `new URL(window.location.href)`
      and `location` the snapshot of `window.location`; `remoteId` and
      `timestamp` feed `getId`; `apexResult` is the outcome of `apexLog`;
      `moduleThis` is what `getConsoleLogFunction` reads. */
  datatype World = World(
    searchPairs: seq<Pair<string, string>>,
    location: Location,
    remoteId: RemoteCall<string>,
    timestamp: string,
    apexResult: RemoteCall<ApexResponse>,
    moduleThis: ModuleThis)

  /** The fallback id, `lightning-` followed by the ISO time stamp. */
  function FallbackId(timestamp: string): (s: string)
    ensures |s| == |FallbackPrefix| + |timestamp|
    ensures s[..|FallbackPrefix|] == FallbackPrefix && s[|FallbackPrefix|..] == timestamp
  {
    FallbackPrefix + timestamp
  }

  /** The outcome of one `getId` call: how its promise settles, the new
      value of the `id` field, and what it called or wrote. */
  datatype IdResolution = IdResolution(result: Settled<string>, id: Option<string>, trace: seq<Event>)

  /** `Transaction.getId`. The remote promise is returned without `await`,
      so its rejection escapes the `catch`; only a synchronous throw reaches
      the fallback, which is the one path that writes `id`. A remote id is
      never stored, and the stored `id` is never read before the remote
      call: there is no caching. */
  function ResolveId(id: Option<string>, remote: RemoteCall<string>, timestamp: string): (r: IdResolution)
    ensures |r.trace| >= 1 && r.trace[0] == CreateTransactionIdCalled
    ensures forall i :: 1 <= i < |r.trace| ==> r.trace[i].ConsoleErrorWritten?
    ensures r.result.Rejected? <==> remote.RejectedAsync?
    ensures remote.RejectedAsync? ==> r.result == Rejected(RemoteFailure(remote.reason))
    ensures remote.Returned? ==> r.result == Fulfilled(remote.value)
    ensures remote.ThrewSync? ==> r.result == Fulfilled(FallbackId(timestamp))
    ensures r.id != id ==> r.id == Some(FallbackId(timestamp)) && r.result == Fulfilled(FallbackId(timestamp))
    ensures remote.ThrewSync? ==>
      r.id == Some(FallbackId(timestamp)) &&
      r.trace == [CreateTransactionIdCalled, ConsoleErrorWritten(remote.reason)]
    ensures !remote.ThrewSync? ==> r.id == id && r.trace == [CreateTransactionIdCalled]
  {
    match remote
    case Returned(s) => IdResolution(Fulfilled(s), id, [CreateTransactionIdCalled])
    case RejectedAsync(reason) =>
      IdResolution(Rejected(RemoteFailure(reason)), id, [CreateTransactionIdCalled])
    case ThrewSync(reason) =>
      var fallback := FallbackId(timestamp);
      IdResolution(Fulfilled(fallback), Some(fallback), [CreateTransactionIdCalled, ConsoleErrorWritten(reason)])
  }

  /** A log entry's own data: everything of a `Log` except its transaction. */
  datatype LogEntry = LogEntry(level: Level, component: Option<Component>, name: Option<string>, namespace: Option<string>)

  /** The `data` object of `log(message)` once the transaction id is known. */
  function PayloadFor(e: LogEntry, message: string, transactionId: string, world: World): (p: Payload)
  {
    Payload(
      DisplayName(e.component, e.name),
      e.level.Tag(),
      message,
      e.namespace,
      transactionId,
      Version,
      WebLocation(world.location, Flatten(world.searchPairs)))
  }

  /** The outcome of one `log` call: how its promise settles, the
      transaction's `id` afterwards, and what it called or wrote. */
  datatype Dispatch = Dispatch(result: Settled<()>, id: Option<string>, trace: seq<Event>)

  /** `Log.log` as a function of the entry, the transaction's `id` before the
      call and the world. `ok_logger.js` line 97 passes `this.logLevel` to
      `getConsoleLogFunction`, but that function declares no parameter and
      switches on the module scope's `this.logLevel`: the entry's level never
      reaches the switch. */
  function DispatchLog(e: LogEntry, message: string, id: Option<string>, world: World): (d: Dispatch)
  {
    var resolution := ResolveId(id, world.remoteId, world.timestamp);
    match resolution.result
    case Rejected(failure) => Dispatch(Rejected(failure), resolution.id, resolution.trace)
    case Fulfilled(transactionId) =>
      var sent := resolution.trace + [ApexLogCalled(PayloadFor(e, message, transactionId, world))];
      match world.apexResult
      case RejectedAsync(reason) => Dispatch(Rejected(RemoteFailure(reason)), resolution.id, sent)
      case ThrewSync(reason) => Dispatch(Rejected(RemoteFailure(reason)), resolution.id, sent)
      case Returned(response) =>
        if !response.isWebConsoleDebugEnabled then Dispatch(Fulfilled(()), resolution.id, sent)
        else
          match ModuleLogLevel(world.moduleThis)
          case Rejected(failure) => Dispatch(Rejected(failure), resolution.id, sent)
          case Fulfilled(level) =>
            var write := ConsoleWritten(ConsoleFunctionFor(level), response.webConsoleLog);
            Dispatch(Fulfilled(()), resolution.id, sent + [write])
  }

  /** `Transaction`: one logical transaction; its only state is the
      optional `id` field. */
  class Transaction {
    var id: Option<string>

    constructor ()
      ensures id == None
    {
      id := None;
    }

    /** `getId()`. */
    method GetId(remote: RemoteCall<string>, timestamp: string) returns (r: Settled<string>, trace: seq<Event>)
      modifies this
      ensures var s := ResolveId(old(id), remote, timestamp); r == s.result && trace == s.trace && id == s.id
    {
      trace := [CreateTransactionIdCalled];
      match remote {
        case Returned(s) =>
          r := Fulfilled(s);
          return;
        case RejectedAsync(reason) =>
          r := Rejected(RemoteFailure(reason));
          return;
        case ThrewSync(reason) =>
          trace := trace + [ConsoleErrorWritten(reason)];
          id := Some(FallbackId(timestamp));
      }
      r := Fulfilled(id.value);
    }
  }

  /** `newTransaction()`: a brand-new transaction with no id. */
  method NewTransaction() returns (t: Transaction)
    ensures fresh(t) && t.id == None
  {
    t := new Transaction();
  }

  /** `Log`: one log entry bound to a transaction. */
  class Log {
    const level: Level
    const component: Option<Component>
    const name: Option<string>
    const namespace: Option<string>
    const transaction: Transaction

    /** `transaction || globalTransaction`: `globalTransaction` is the
        module-scope binding the constructor reads. */
    constructor (level: Level, component: Option<Component>, name: Option<string>,
                 namespace: Option<string>, transaction: Option<Transaction>,
                 globalTransaction: Transaction)
      ensures this.level == level && this.component == component
      ensures this.name == name && this.namespace == namespace
      ensures this.transaction == if transaction.Some? then transaction.value else globalTransaction
    {
      this.level := level;
      this.component := component;
      this.name := name;
      this.namespace := namespace;
      this.transaction := if transaction.Some? then transaction.value else globalTransaction;
    }

    function Entry(): (e: LogEntry)
    {
      LogEntry(level, component, name, namespace)
    }

    /** `log(message)`: resolve the name, await the transaction id, build the
        payload, await `apexLog`, and mirror to the console only when the
        response asks for it. */
    method Log(message: string, world: World) returns (r: Settled<()>, trace: seq<Event>)
      modifies transaction
      ensures var d := DispatchLog(Entry(), message, old(transaction.id), world);
        r == d.result && trace == d.trace && transaction.id == d.id
    {
      var idResult, idTrace := transaction.GetId(world.remoteId, world.timestamp);
      trace := idTrace;
      if idResult.Rejected? {
        r := Rejected(idResult.failure);
        return;
      }
      var data := PayloadFor(Entry(), message, idResult.value, world);
      trace := trace + [ApexLogCalled(data)];
      match world.apexResult {
        case Returned(response) =>
          if response.isWebConsoleDebugEnabled {
            // The argument of `getConsoleLogFunction(this.logLevel)` is ignored: the switch reads the module's `this`.
            var level := ModuleLogLevel(world.moduleThis);
            if level.Rejected? {
              r := Rejected(level.failure);
              return;
            }
            trace := trace + [ConsoleWritten(ConsoleFunctionFor(level.value), response.webConsoleLog)];
          }
          r := Fulfilled(());
        case RejectedAsync(reason) =>
          r := Rejected(RemoteFailure(reason));
        case ThrewSync(reason) =>
          r := Rejected(RemoteFailure(reason));
      }
    }
  }

  /** The options object `{ component, name, namespace }`. */
  datatype LoggerOptions = LoggerOptions(component: Option<Component>, name: Option<string>, namespace: Option<string>)

  /** `LightningLogger`: a factory of log entries for one component. */
  class LightningLogger {
    const component: Option<Component>
    const name: Option<string>
    const namespace: Option<string>
    /** The module-scope `globalTransaction` that every entry made here is bound to. */
    const globalTransaction: Transaction

    constructor (opts: LoggerOptions, globalTransaction: Transaction)
      ensures component == opts.component && name == opts.name && namespace == opts.namespace
      ensures this.globalTransaction == globalTransaction
    {
      component := opts.component;
      name := opts.name;
      namespace := opts.namespace;
      this.globalTransaction := globalTransaction;
    }

    /** `log` carries `level` and this logger's fields, and is bound to the
        global transaction. */
    predicate Made(log: Log, level: Level)
    {
      log.level == level && log.component == component && log.name == name &&
      log.namespace == namespace && log.transaction == globalTransaction
    }

    /** `createLog(logLevel)`: no transaction is passed, so the entry falls
        back to the global one. */
    method CreateLog(level: Level) returns (log: Log)
      ensures fresh(log) && Made(log, level)
    {
      log := new Log(level, component, name, namespace, None, globalTransaction);
    }

    method Error() returns (log: Log)
      ensures fresh(log) && Made(log, ERROR)
    {
      log := CreateLog(ERROR);
    }

    method Warn() returns (log: Log)
      ensures fresh(log) && Made(log, WARN)
    {
      log := CreateLog(WARN);
    }

    method Info() returns (log: Log)
      ensures fresh(log) && Made(log, INFO)
    {
      log := CreateLog(INFO);
    }

    method Debug() returns (log: Log)
      ensures fresh(log) && Made(log, DEBUG)
    {
      log := CreateLog(DEBUG);
    }

    method Fine() returns (log: Log)
      ensures fresh(log) && Made(log, FINE)
    {
      log := CreateLog(FINE);
    }

    method Finer() returns (log: Log)
      ensures fresh(log) && Made(log, FINER)
    {
      log := CreateLog(FINER);
    }

    method Finest() returns (log: Log)
      ensures fresh(log) && Made(log, FINEST)
    {
      log := CreateLog(FINEST);
    }
  }

  /** The module's own state: `globalTransaction`, made once when the module
      is loaded, and the exported functions that read it. */
  class LoggerModule {
    const globalTransaction: Transaction

    /** Loading the module: `const globalTransaction = newTransaction()`. */
    constructor ()
      ensures fresh(globalTransaction) && globalTransaction.id == None
    {
      var t := NewTransaction();
      globalTransaction := t;
    }

    /** `getLogger(opts)`. */
    method GetLogger(opts: LoggerOptions) returns (logger: LightningLogger)
      ensures fresh(logger)
      ensures logger.component == opts.component && logger.name == opts.name
      ensures logger.namespace == opts.namespace
      ensures logger.globalTransaction == globalTransaction
    {
      logger := new LightningLogger(opts, globalTransaction);
    }

    /** `getTransaction()`: always the one global instance. */
    method GetTransaction() returns (t: Transaction)
      ensures t == globalTransaction
    {
      t := globalTransaction;
    }
  }
}
