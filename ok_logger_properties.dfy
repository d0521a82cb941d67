/** What one dispatch of a log entry does, stated over the trace of calls and
    writes that `DispatchLog` records, and the properties of the transaction,
    level and naming rules it is built from. */
module OkLoggerProperties {
  import opened Outcomes
  import opened SearchParams
  import opened OkLogger

  /** The payloads handed to `apexLog`, in order. */
  function ApexPayloads(t: seq<Event>): (ps: seq<Payload>)
  {
    if t == [] then []
    else (if t[0].ApexLogCalled? then [t[0].data] else []) + ApexPayloads(t[1..])
  }

  /** The messages mirrored to the console (not the fallback's
      `console.error`), in order. */
  function ConsoleWrites(t: seq<Event>): (ws: seq<(Channel, string)>)
  {
    if t == [] then []
    else (if t[0].ConsoleWritten? then [(t[0].channel, t[0].text)] else []) + ConsoleWrites(t[1..])
  }

  lemma {:induction false} ApexPayloadsConcat(a: seq<Event>, b: seq<Event>)
    ensures ApexPayloads(a + b) == ApexPayloads(a) + ApexPayloads(b)
  {
    if a != [] {
      assert (a + b)[0] == a[0] && (a + b)[1..] == a[1..] + b;
      ApexPayloadsConcat(a[1..], b);
    } else {
      assert a + b == b;
    }
  }

  lemma {:induction false} ConsoleWritesConcat(a: seq<Event>, b: seq<Event>)
    ensures ConsoleWrites(a + b) == ConsoleWrites(a) + ConsoleWrites(b)
  {
    if a != [] {
      assert (a + b)[0] == a[0] && (a + b)[1..] == a[1..] + b;
      ConsoleWritesConcat(a[1..], b);
    } else {
      assert a + b == b;
    }
  }

  /** Resolving the transaction id neither calls `apexLog` nor mirrors
      anything to the console. */
  lemma ResolveIdSendsNothing(id: Option<string>, remote: RemoteCall<string>, timestamp: string)
    ensures ApexPayloads(ResolveId(id, remote, timestamp).trace) == []
    ensures ConsoleWrites(ResolveId(id, remote, timestamp).trace) == []
  {
    var t := ResolveId(id, remote, timestamp).trace;
    if remote.ThrewSync? {
      assert t == [CreateTransactionIdCalled, ConsoleErrorWritten(remote.reason)];
      assert t[1..] == [ConsoleErrorWritten(remote.reason)] && t[1..][1..] == [];
      assert ApexPayloads(t[1..]) == [] && ConsoleWrites(t[1..]) == [];
    } else {
      assert t == [CreateTransactionIdCalled] && t[1..] == [];
    }
  }

  /** `getId` does not cache: its promise and its calls are the same whatever
      the transaction's `id` holds, so every call goes to the remote
      service again. */
  lemma ResolveIdIgnoresStoredId(id1: Option<string>, id2: Option<string>, remote: RemoteCall<string>, timestamp: string)
    ensures ResolveId(id1, remote, timestamp).result == ResolveId(id2, remote, timestamp).result
    ensures ResolveId(id1, remote, timestamp).trace == ResolveId(id2, remote, timestamp).trace
  {
  }

  /** Two `getId` calls on one transaction can resolve to different ids. */
  lemma ResolveIdNotIdempotent(timestamp: string)
    ensures var first := ResolveId(None, Returned("tx-1"), timestamp);
      first.result == Fulfilled("tx-1") &&
      ResolveId(first.id, Returned("tx-2"), timestamp).result == Fulfilled("tx-2")
  {
  }

  /** The seven level tags are pairwise different. */
  lemma LevelTagsDistinct(a: Level, b: Level)
    ensures a.Tag() == b.Tag() ==> a == b
  {
  }

  /** Applied to a level's own tag, the switch sends ERROR, WARN and DEBUG to
      their own channels and the four other levels to `console.log`. */
  lemma ConsoleFunctionForLevel(l: Level)
    ensures ConsoleFunctionFor(Some(l.Tag())) ==
      match l
      case ERROR => ErrorChannel
      case WARN => WarnChannel
      case DEBUG => DebugChannel
      case _ => LogChannel
  {
  }

  /** A component whose host element is `c-widget` names the payload
      `c-widget`, whatever name the logger was given. */
  lemma DisplayNameExample()
    ensures DisplayName(Some(Component(Some(Template(Some(Host(Some("c-widget"))))))), Some("fallbackName"))
      == Some("c-widget")
  {
  }

  /** The order of a dispatch's trace: the resolution's trace, and nothing
      more when resolution rejected; otherwise the `apexLog` call with the
      payload built from the resolved id, followed only by console writes.
      So `createTransactionId` is called once per `log`, and the mirror write
      never precedes the backend call. */
  lemma DispatchTraceOrder(e: LogEntry, message: string, id: Option<string>, world: World)
    ensures var d := DispatchLog(e, message, id, world);
      var res := ResolveId(id, world.remoteId, world.timestamp);
      res.result.Rejected? ==> d.trace == res.trace
    ensures var d := DispatchLog(e, message, id, world);
      var res := ResolveId(id, world.remoteId, world.timestamp);
      res.result.Fulfilled? ==>
        |d.trace| > |res.trace| &&
        d.trace[|res.trace|] == ApexLogCalled(PayloadFor(e, message, res.result.value, world)) &&
        forall i :: |res.trace| < i < |d.trace| ==> d.trace[i].ConsoleWritten?
  {
  }

  /** A dispatch first resolves the transaction id (and its trace is a
      prefix of the dispatch's), then calls `apexLog` exactly once with the
      payload built from the resolved id, or not at all when resolution
      rejected; `DispatchTraceOrder` fixes what comes after the prefix. */
  lemma DispatchSendsOnePayloadAfterTheId(e: LogEntry, message: string, id: Option<string>, world: World)
    ensures var d := DispatchLog(e, message, id, world);
      var res := ResolveId(id, world.remoteId, world.timestamp);
      d.id == res.id &&
      |res.trace| <= |d.trace| && d.trace[..|res.trace|] == res.trace &&
      ApexPayloads(d.trace) ==
        if res.result.Fulfilled? then [PayloadFor(e, message, res.result.value, world)] else []
  {
    var d := DispatchLog(e, message, id, world);
    var res := ResolveId(id, world.remoteId, world.timestamp);
    ResolveIdSendsNothing(id, world.remoteId, world.timestamp);
    if res.result.Fulfilled? {
      var p := PayloadFor(e, message, res.result.value, world);
      var sent := res.trace + [ApexLogCalled(p)];
      ApexPayloadsConcat(res.trace, [ApexLogCalled(p)]);
      assert ApexPayloads(sent) == [p];
      if d.trace != sent {
        var w := d.trace[|sent|];
        assert d.trace == sent + [w] && w.ConsoleWritten?;
        ApexPayloadsConcat(sent, [w]);
      }
    }
  }

  /** The payload carries the entry's level tag, message and namespace
      unchanged, the resolved name and transaction id, the fixed version,
      and the location with its flattened query parameters. */
  lemma DispatchPayloadFields(e: LogEntry, message: string, id: Option<string>, world: World, p: Payload)
    requires p in ApexPayloads(DispatchLog(e, message, id, world).trace)
    ensures p.name == DisplayName(e.component, e.name)
    ensures p.logLevel == e.level.Tag() && p.message == message && p.namespace == e.namespace
    ensures ResolveId(id, world.remoteId, world.timestamp).result == Fulfilled(p.transactionId)
    ensures p.version == "0.1-beta"
    ensures p.web == WebLocation(world.location, Flatten(world.searchPairs))
  {
    DispatchSendsOnePayloadAfterTheId(e, message, id, world);
  }

  /** The console is written only when the id resolved and `apexLog`
      fulfilled with `isWebConsoleDebugEnabled` set, and then exactly once,
      with `webConsoleLog`, on the channel the switch picks for the module
      scope's `logLevel`. Otherwise nothing is mirrored; the fallback's
      `console.error` is a separate write, not counted here. */
  lemma DispatchMirrorsOnlyWhenEnabled(e: LogEntry, message: string, id: Option<string>, world: World)
    ensures ConsoleWrites(DispatchLog(e, message, id, world).trace) ==
      if ResolveId(id, world.remoteId, world.timestamp).result.Fulfilled? &&
         world.apexResult.Returned? && world.apexResult.value.isWebConsoleDebugEnabled &&
         world.moduleThis.ThisObject?
      then [(ConsoleFunctionFor(world.moduleThis.logLevel), world.apexResult.value.webConsoleLog)]
      else []
  {
    var d := DispatchLog(e, message, id, world);
    var res := ResolveId(id, world.remoteId, world.timestamp);
    ResolveIdSendsNothing(id, world.remoteId, world.timestamp);
    if res.result.Fulfilled? {
      var p := PayloadFor(e, message, res.result.value, world);
      var sent := res.trace + [ApexLogCalled(p)];
      ConsoleWritesConcat(res.trace, [ApexLogCalled(p)]);
      assert ConsoleWrites(sent) == [];
      if d.trace != sent {
        var w := d.trace[|sent|];
        assert d.trace == sent + [w];
        ConsoleWritesConcat(sent, [w]);
      }
    }
  }

  /** The channel does not depend on the entry's level: an ERROR entry and a
      FINEST entry mirror the same message to the same console function. */
  lemma DispatchChannelIgnoresEntryLevel(e: LogEntry, level: Level, message: string, id: Option<string>, world: World)
    ensures ConsoleWrites(DispatchLog(e, message, id, world).trace) ==
      ConsoleWrites(DispatchLog(e.(level := level), message, id, world).trace)
  {
    DispatchMirrorsOnlyWhenEnabled(e, message, id, world);
    DispatchMirrorsOnlyWhenEnabled(e.(level := level), message, id, world);
  }

  /** A dispatch rejects exactly when the remote id promise rejects, when
      `apexLog` fails, or when mirroring is requested and the module scope's
      `this` is `undefined`; it rejects with the id call's reason, with
      `apexLog`'s reason, or with the TypeError, in that order of precedence. */
  lemma DispatchRejectsWhen(e: LogEntry, message: string, id: Option<string>, world: World)
    ensures DispatchLog(e, message, id, world).result.Rejected? <==>
      world.remoteId.RejectedAsync? ||
      !world.apexResult.Returned? ||
      (world.apexResult.value.isWebConsoleDebugEnabled && world.moduleThis == UndefinedThis)
    ensures world.remoteId.RejectedAsync? ==>
      DispatchLog(e, message, id, world).result == Rejected(RemoteFailure(world.remoteId.reason))
    ensures !world.remoteId.RejectedAsync? && !world.apexResult.Returned? ==>
      DispatchLog(e, message, id, world).result == Rejected(RemoteFailure(world.apexResult.reason))
    ensures (!world.remoteId.RejectedAsync? && world.apexResult.Returned? &&
             world.apexResult.value.isWebConsoleDebugEnabled && world.moduleThis == UndefinedThis) ==>
      DispatchLog(e, message, id, world).result == Rejected(LogLevelOfUndefined)
  {
  }

  /** Entries made by a logger from the module are all bound to the one
      global transaction, which `getTransaction` returns. */
  method LoggerEntriesShareGlobalTransaction(m: LoggerModule, opts: LoggerOptions)
    returns (a: Log, b: Log, t: Transaction)
    ensures a != b && a.level == ERROR && b.level == FINEST
    ensures a.transaction == b.transaction == t == m.globalTransaction
  {
    var logger := m.GetLogger(opts);
    a := logger.Error();
    b := logger.Finest();
    t := m.GetTransaction();
  }
}
