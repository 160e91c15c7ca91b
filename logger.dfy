/** Loggers with path-like names: a logrus entry plus the name path, the Sentry manager
    whose hook it registers, and a level handed on to the loggers it extends. */
module Loggers {
  import opened Wrappers
  import opened Strings
  import opened Logrus
  import opened Foreign
  import opened Entries
  import opened Manager

  /** Field key under which `Recovery` logs the panic value. */
  const PanicField := "panic"
  /** `http.StatusInternalServerError`. */
  const InternalServerError := 500

  /** A `*logrus.Logger` instance: its level, its hooks and whether output is discarded. */
  datatype Sink = Sink(level: Level, hooks: seq<SentryManager>, discard: bool)

  /** `logrus.New()`. */
  const NewSink := Sink(DefaultLevel, [], false)

  /** A `*logrus.Entry`. Its context is the only part the package changes in place. */
  class LogEntry {
    const sink: Sink
    const data: map<string, Value>
    var context: Option<Context>

    constructor (sink: Sink, data: map<string, Value>, context: Option<Context>)
      ensures this.sink == sink && this.data == data && this.context == context
    {
      this.sink := sink;
      this.data := data;
      this.context := context;
    }

    /** `Entry.WithField(key, value)`: a new entry with one more field, same sink and context. */
    method WithField(key: string, value: Value) returns (e: LogEntry)
      ensures fresh(e)
      ensures e.sink == sink && e.data == data[key := value] && e.context == context
    {
      e := new LogEntry(sink, data[key := value], context);
    }

    /** The entry handed to the hooks when this one logs `message` at `level` at `time`. */
    function Snapshot(level: Level, message: string, time: int): Entry
      reads this
    {
      Entry(level, message, time, data, context)
    }
  }

  /** The context after `ensureContext`: a nil context becomes Background. */
  function EnsuredContext(c: Option<Context>): (r: Context)
    ensures c.Some? ==> r == c.value
    ensures c.None? ==> r == Background
  {
    c.GetOr(Background)
  }

  /** `ensureContext` is idempotent, and keeps a context that is already set. */
  lemma EnsuredContextIdempotent(c: Option<Context>)
    ensures EnsuredContext(Some(EnsuredContext(c))) == EnsuredContext(c)
    ensures c.Some? ==> EnsuredContext(c) == c.value
  {
  }

  /** The panic is a `*net.OpError` over a `*os.SyscallError` whose message, lower-cased,
      mentions a broken pipe or a reset connection: the client has gone away. */
  predicate IsBrokenPipe(v: Value)
    ensures IsBrokenPipe(v) ==> v.VError? && v.err.typeName == "*net.OpError"
    ensures IsBrokenPipe(v) ==> v.err.cause.Some? && v.err.cause.value.typeName == "*os.SyscallError"
    ensures IsBrokenPipe(v) ==> |v.err.cause.value.text| >= |"broken pipe"|
  {
    && v.VError? && v.err.typeName == "*net.OpError"
    && v.err.cause.Some? && v.err.cause.value.typeName == "*os.SyscallError"
    && var msg := ToLower(v.err.cause.value.text);
       Contains(msg, "broken pipe") || Contains(msg, "connection reset by peer")
  }

  /** The classification ignores case: any spelling of "broken pipe" in the system
      error's message counts. */
  lemma BrokenPipeIgnoresCase(v: Value, spelling: string)
    requires v.VError? && v.err.typeName == "*net.OpError"
    requires v.err.cause.Some? && v.err.cause.value.typeName == "*os.SyscallError"
    requires Contains(v.err.cause.value.text, spelling) && ToLower(spelling) == "broken pipe"
    ensures IsBrokenPipe(v)
  {
    ContainsToLower(v.err.cause.value.text, spelling);
  }

  /** Likewise for any spelling of "connection reset by peer". */
  lemma ConnectionResetIgnoresCase(v: Value, spelling: string)
    requires v.VError? && v.err.typeName == "*net.OpError"
    requires v.err.cause.Some? && v.err.cause.value.typeName == "*os.SyscallError"
    requires Contains(v.err.cause.value.text, spelling) && ToLower(spelling) == "connection reset by peer"
    ensures IsBrokenPipe(v)
  {
    ContainsToLower(v.err.cause.value.text, spelling);
  }

  /** Only a `*net.OpError` itself can be a broken pipe; wrapping it in anything hides it. */
  lemma OnlyOpErrorIsBrokenPipe(v: Value)
    requires !v.VError? || v.err.typeName != "*net.OpError"
    ensures !IsBrokenPipe(v)
  {
  }

  /** The message `Recovery` logs for a request. */
  function RecoveryMessage(c: GinRequest): string {
    "recovered from panic in " + Quote(c.fullPath)
  }

  /** `logger`: a logrus entry, a level for extended loggers, the manager and the name path. */
  class Logger {
    const entry: LogEntry
    const level: Level
    const manager: SentryManager?
    const name: seq<string>

    constructor (entry: LogEntry, level: Level, manager: SentryManager?, name: seq<string>)
      ensures this.entry == entry && this.level == level && this.manager == manager && this.name == name
    {
      this.entry := entry;
      this.level := level;
      this.manager := manager;
      this.name := name;
    }

    /** `Extend(n)`: a new logger one level down the name path. It starts from a fresh
        entry holding only the dotted name; its logrus instance takes this logger's level
        and the manager's hook, while its own level field stays zero. */
    method Extend(n: string) returns (child: Logger)
      ensures fresh(child) && fresh(child.entry)
      ensures child.name == name + [n]
      ensures child.entry.data == map[KeyLoggerName := VString(Join(name + [n], "."))]
      ensures child.entry.context == None
      ensures child.entry.sink == Sink(level, if manager != null then [manager] else [], false)
      ensures child.manager == manager && child.level == ZeroLevel
    {
      var sink := NewSink.(level := level);
      if manager != null {
        sink := sink.(hooks := sink.hooks + [manager]);
      }
      var newName := name + [n];
      var newNameStr := Join(newName, ".");
      var e := new LogEntry(sink, map[KeyLoggerName := VString(newNameStr)], None);
      child := new Logger(e, ZeroLevel, manager, newName);
    }

    /** `ensureContext()`. */
    method EnsureContext()
      modifies entry
      ensures entry.context == Some(EnsuredContext(old(entry.context)))
    {
      if entry.context.None? {
        entry.context := Some(Background);
      }
    }

    /** `WithUser(id)`: binds the id in this logger's own context, and returns a new
        logger that also carries it as a field. */
    method WithUser(userID: string) returns (r: Logger)
      modifies entry
      ensures entry.context == Some(WithValue(EnsuredContext(old(entry.context)), KeyUserID, VString(userID)))
      ensures fresh(r) && fresh(r.entry)
      ensures r.entry.sink == entry.sink && r.entry.data == entry.data[KeyUserID := VString(userID)]
      ensures r.entry.context == entry.context
      ensures r.name == name && r.manager == manager && r.level == ZeroLevel
    {
      EnsureContext();
      entry.context := Some(WithValue(entry.context.value, KeyUserID, VString(userID)));
      var e := entry.WithField(KeyUserID, VString(userID));
      r := new Logger(e, ZeroLevel, manager, name);
    }

    /** `WithGin(c)`: binds the request in this logger's own context and returns it. */
    method WithGin(c: GinRequest) returns (r: Logger)
      modifies entry
      ensures r == this
      ensures entry.context == Some(WithValue(EnsuredContext(old(entry.context)), KeyGinContext, VGin(c)))
    {
      EnsureContext();
      entry.context := Some(WithValue(entry.context.value, KeyGinContext, VGin(c)));
      r := this;
    }

    /** The handler `Recovery()` returns, run on request `c` whose downstream handlers
        panicked with `recovered` (nil: they returned). It reports the calls made on `c`
        and the entries logged (at most one, when the logrus level lets errors through). */
    method Recovery(c: GinRequest, recovered: Value, now: int) returns (calls: seq<GinCall>, logged: seq<Entry>)
      modifies entry
      ensures recovered == VNil ==> calls == [Next] && logged == [] && entry.context == old(entry.context)
      ensures IsBrokenPipe(recovered) ==>
        calls == [Next, RecordError(recovered.err), Abort] && logged == [] && entry.context == old(entry.context)
      ensures recovered != VNil && !IsBrokenPipe(recovered) ==>
        && calls == [Next, AbortWithStatus(InternalServerError)]
        && entry.context == Some(WithValue(EnsuredContext(old(entry.context)), KeyGinContext, VGin(c)))
        && logged == if Enabled(entry.sink.level, ErrorLevel)
                     then [Entry(ErrorLevel, RecoveryMessage(c), now, entry.data[PanicField := recovered], entry.context)]
                     else []
    {
      calls := [Next];
      logged := [];
      if recovered != VNil {
        if IsBrokenPipe(recovered) {
          calls := calls + [RecordError(recovered.err), Abort];
        } else {
          var l := WithGin(c);
          var e := l.entry.WithField(PanicField, recovered);
          if Enabled(e.sink.level, ErrorLevel) {
            logged := [e.Snapshot(ErrorLevel, RecoveryMessage(c), now)];
          }
          calls := calls + [AbortWithStatus(InternalServerError)];
        }
      }
    }
  }

  /** `NewPlainLogger(name, level)`: no manager; the logrus instance keeps logrus's
      default level, `level` only reaches loggers it extends. */
  method NewPlainLogger(name: string, level: Level) returns (l: Logger)
    ensures fresh(l) && fresh(l.entry)
    ensures l.name == [name] && l.level == level && l.manager == null
    ensures l.entry.sink == NewSink
    ensures l.entry.data == map[KeyLoggerName := VString(name)] && l.entry.context == None
  {
    var e := new LogEntry(NewSink, map[KeyLoggerName := VString(name)], None);
    l := new Logger(e, level, null, [name]);
  }

  /** `SentryManager.NewLogger(name)`: a logger whose logrus instance has the manager's
      hook; the manager's `logLevel` is not used and the level field stays zero. */
  method NewLogger(m: SentryManager, name: string) returns (l: Logger)
    ensures fresh(l) && fresh(l.entry)
    ensures l.name == [name] && l.level == ZeroLevel && l.manager == m
    ensures l.entry.sink == Sink(DefaultLevel, [m], false)
    ensures l.entry.data == map[KeyLoggerName := VString(name)] && l.entry.context == None
  {
    var e := new LogEntry(NewSink.(hooks := [m]), map[KeyLoggerName := VString(name)], None);
    l := new Logger(e, ZeroLevel, m, [name]);
  }

  /** Extending twice gives the path extended by both names, displayed as the parent's
      dotted name followed by both; the grandchild's logrus instance is at PanicLevel,
      since the child's own level field is zero. */
  method ExtendTwice(l: Logger, a: string, b: string) returns (g: Logger)
    ensures g.name == l.name + [a, b]
    ensures g.entry.data == map[KeyLoggerName := VString(Join(l.name + [a, b], "."))]
    ensures l.name != [] ==> g.entry.data[KeyLoggerName] == VString(Join(l.name, ".") + "." + a + "." + b)
    ensures g.entry.sink.level == PanicLevel
  {
    var child := l.Extend(a);
    g := child.Extend(b);
    assert l.name + [a] + [b] == l.name + [a, b];
    if l.name != [] {
      JoinAppend(l.name, [a, b], ".");
      JoinAppend([a], [b], ".");
      assert [a] + [b] == [a, b];
    }
  }

  /** The entry `Recovery` logs binds the request, so a well-formed one is grouped by route. */
  lemma RecoveryEntryGroupedByRoute(crumbs: seq<Breadcrumb>, e: Entry, ctx: Context, c: GinRequest)
    requires e.context == Some(WithValue(ctx, KeyGinContext, VGin(c)))
    requires Enrichable(e)
    ensures Dispatch(crumbs, e).event.fingerprint == [FingerprintBase, c.httpMethod, c.fullPath, e.message]
  {
    RouteFingerprintWins(crumbs, e, c);
  }

  /** A context chain rooted at Background that never binds "sentry_hub", as every chain
      `ensureContext`, `WithUser` and `WithGin` build is. */
  predicate LoggerChain(ctx: Context) {
    && Root(ctx) == Background
    && forall i :: 0 <= i < |Bindings(ctx)| ==> Bindings(ctx)[i].0 != KeySentryHub
  }

  /** A key no binding uses has no latest binding. */
  lemma {:induction false} UnboundHasNoLatest(bs: seq<(string, Value)>, key: string)
    requires forall i :: 0 <= i < |bs| ==> bs[i].0 != key
    ensures LastBinding(bs, key) == None
    decreases |bs|
  {
    if bs != [] {
      UnboundHasNoLatest(bs[..|bs| - 1], key);
    }
  }

  /** An entry logged through a logger's own context, `Recovery`'s included, finds no
      request hub there: the `*gin.Context` is bound as a value, not used as the context,
      so `Fire` reports it on a fresh clone of the base hub. */
  lemma LoggerContextHasNoHub(e: Entry, ctx: Context)
    requires e.context == Some(ctx) && LoggerChain(ctx)
    ensures ContextHub(e) == null
  {
    ValueIsLatestBinding(ctx, KeySentryHub);
    UnboundHasNoLatest(Bindings(ctx), KeySentryHub);
  }

  /** `WithGin` on a logger chain keeps it a logger chain. */
  lemma {:induction false} WithGinKeepsLoggerChain(ctx: Context, c: GinRequest)
    requires LoggerChain(ctx)
    ensures LoggerChain(WithValue(ctx, KeyGinContext, VGin(c)))
  {
    var bs := Bindings(WithValue(ctx, KeyGinContext, VGin(c)));
    assert bs == Bindings(ctx) + [(KeyGinContext, VGin(c))];
    forall i | 0 <= i < |bs| ensures bs[i].0 != KeySentryHub {
      if i < |Bindings(ctx)| {
        assert bs[i] == Bindings(ctx)[i];
      }
    }
  }

  /** A context that `WithUser` bound gives that user id back. */
  lemma WithUserIDIsRead(e: Entry, ctx: Context, id: string)
    requires e.context == Some(WithValue(ctx, KeyUserID, VString(id)))
    ensures UserID(e) == Returns(id)
  {
  }
}
