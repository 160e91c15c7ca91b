/** The Sentry manager: a logrus hook that turns log entries into Sentry events. One event
    is built per fired entry, on the request's hub when the entry carries one and on a
    clone of the manager's base hub otherwise; a panic while building it is turned into a
    fixed fallback event. */
module Manager {
  import opened Wrappers
  import opened Logrus
  import opened Foreign
  import opened Entries
  import opened Coerce
  import opened Config

  /** Context key under which a request's hub is stored. */
  const KeySentryHub := "sentry_hub"
  /** The limit every breadcrumb is added with. */
  const BreadcrumbLimit: nat := 5
  /** First element of every fingerprint the manager builds. */
  const FingerprintBase := "api"
  /** Message of the fallback event. */
  const PanicEventMessage := "recovered panic within sentry error logging"

  // ---------------------------------------------------------------------------
  // Hub choice

  /** The non-nil hub the entry's context binds under "sentry_hub", or null. */
  function ContextHub(e: Entry): (h: Hub?)
    ensures h != null <==> Bound(e, KeySentryHub).VHub? && Bound(e, KeySentryHub).hub != null
    ensures h != null ==> Bound(e, KeySentryHub) == VHub(h)
  {
    var v := Bound(e, KeySentryHub);
    if v.VHub? then v.hub else null
  }

  /** The objects `Fire` may change: the entry's own hub, if it has one. */
  function ContextHubs(e: Entry): set<Hub> {
    if ContextHub(e) != null then {ContextHub(e)} else {}
  }

  // ---------------------------------------------------------------------------
  // The event

  /** The fingerprint: the route when a request is bound, else the logger name, else empty.
      The bare name the source appends first is always overwritten (see `BuildEvent`). */
  function Fingerprint(name: string, gin: Option<GinRequest>, message: string): (fp: seq<string>)
    ensures gin.Some? ==> fp == [FingerprintBase, gin.value.httpMethod, gin.value.fullPath, message]
    ensures gin.None? && name != "" ==> fp == [FingerprintBase, name, message]
    ensures gin.None? && name == "" ==> fp == []
    ensures |fp| == 0 || |fp| == 3 || |fp| == 4
  {
    if gin.Some? then [FingerprintBase, gin.value.httpMethod, gin.value.fullPath, message]
    else if name != "" then [FingerprintBase, name, message]
    else []
  }

  /** The event built for an entry with the given name, request and user id. */
  function EventFor(e: Entry, name: string, gin: Option<GinRequest>, userID: string): (ev: Event)
    ensures ev.level == LevelString(e.level) && ev.message == e.message
    ensures ev.extra == e.data && ev.timestamp == e.time
    ensures ev.logger != "" <==> name != ""
    ensures ev.logger != "" ==> ev.logger == name
    ensures ev.fingerprint == Fingerprint(name, gin, e.message)
    ensures ev.user.Some? <==> userID != ""
    ensures ev.user.Some? ==> ev.user.value.id == userID
    ensures ev.breadcrumbs == []
  {
    Event(LevelString(e.level), e.message, e.data, e.time, name, Fingerprint(name, gin, e.message),
      if userID != "" then Some(User(userID)) else None, [])
  }

  /** The fallback event captured after a panic. */
  const FallbackEvent := NewEvent.(level := "error", message := PanicEventMessage,
    fingerprint := [FingerprintBase, "sentry_panic"])

  // ---------------------------------------------------------------------------
  // Breadcrumbs

  /** The database breadcrumb for an error that describes its query. */
  function QueryCrumb(q: QueryView, time: int): (b: Breadcrumb)
    ensures b.kind == "query" && b.category == "db" && b.message == "database query"
    ensures b.level == "info" && b.timestamp == time
    ensures b.data.Keys == {"query", "args"}
    ensures b.data["query"] == VString(q.body) && b.data["args"] == VSlice(q.args)
  {
    Breadcrumb("query", "db", "database query",
      map["query" := VString(q.body), "args" := VSlice(q.args)], "info", time)
  }

  /** The breadcrumb every attached error gets. */
  function ErrorCrumb(name: string, err: ErrorValue, time: int): (b: Breadcrumb)
    ensures b.kind == "error" && b.level == "error" && b.timestamp == time
    ensures b.category == name && b.message == err.text && b.data == map[]
  {
    Breadcrumb("error", name, err.text, map[], "error", time)
  }

  /** The breadcrumb recording a recovered panic's message (no timestamp is set). */
  function PanicCrumb(message: string): (b: Breadcrumb)
    ensures b.kind == "error" && b.category == "sentry.panic" && b.level == "fatal"
    ensures b.message == message && b.data == map[] && b.timestamp == 0
  {
    Breadcrumb("error", "sentry.panic", message, map[], "fatal", 0)
  }

  /** The query breadcrumbs an error contributes: one when it implements `query`. */
  function QueryCrumbs(err: ErrorValue, time: int): seq<Breadcrumb> {
    if err.query.Some? then [QueryCrumb(err.query.value, time)] else []
  }

  /** Breadcrumbs after `enrichEventWithError`, and the panic that cut it short, if any. */
  datatype Step = Step(crumbs: seq<Breadcrumb>, panic: Option<Value>)

  /** `enrichEventWithError`: with an error attached, its query crumb (when it has one),
      then the error crumb; nothing without an error. */
  function EnrichWithError(crumbs: seq<Breadcrumb>, e: Entry): (s: Step)
    ensures Error(e).None? ==> s == Step(crumbs, None)
    ensures s.panic.Some? <==> Error(e).Some? && LoggerName(e).Panics?
    ensures Error(e).Some? && LoggerName(e).Returns? ==>
      s.crumbs == AddCrumbs(crumbs,
        QueryCrumbs(Error(e).value, e.time) + [ErrorCrumb(LoggerName(e).value, Error(e).value, e.time)],
        BreadcrumbLimit)
  {
    match Error(e)
    case None => Step(crumbs, None)
    case Some(err) =>
      var probe := TryCoerceQuery(VError(err), (q: QueryView) => QueryCrumb(q, e.time));
      var withQuery := if probe.ok then AddCrumb(crumbs, probe.invoked[0], BreadcrumbLimit) else crumbs;
      match LoggerName(e)
      case Panics(p) => Step(withQuery, Some(p))
      case Returns(name) =>
        var b := ErrorCrumb(name, err, e.time);
        AddCrumbsThen(crumbs, probe.invoked, b, BreadcrumbLimit);
        Step(AddCrumb(withQuery, b, BreadcrumbLimit), None)
  }

  /** The breadcrumb a recovered panic value leaves: for an error or a string only. */
  function PanicCrumbFor(p: Value): (b: Option<Breadcrumb>)
    ensures b.Some? <==> p.VError? || p.VString?
    ensures p.VError? ==> b == Some(PanicCrumb(p.err.text))
    ensures p.VString? ==> b == Some(PanicCrumb(p.str))
  {
    match p
    case VError(err) => Some(PanicCrumb(err.text))
    case VString(s) => Some(PanicCrumb(s))
    case _ => None
  }

  /** Final breadcrumbs of the hub's scope and the one event submitted. */
  datatype Outcome = Outcome(crumbs: seq<Breadcrumb>, event: Event)

  /** `recoverFromLogging` after a panic with value `p`. */
  function Recovered(crumbs: seq<Breadcrumb>, p: Value): (o: Outcome)
    ensures o.event == Captured(FallbackEvent, o.crumbs)
    ensures p.VError? ==> o.crumbs == AddCrumb(crumbs, PanicCrumb(p.err.text), BreadcrumbLimit)
    ensures p.VString? ==> o.crumbs == AddCrumb(crumbs, PanicCrumb(p.str), BreadcrumbLimit)
    ensures !p.VError? && !p.VString? ==> o.crumbs == crumbs
  {
    var after := match PanicCrumbFor(p)
      case Some(b) => AddCrumb(crumbs, b, BreadcrumbLimit)
      case None => crumbs;
    Outcome(after, Captured(FallbackEvent, after))
  }

  /** The body of `Fire`'s goroutine, run on a hub whose scope holds `crumbs`. */
  function Dispatch(crumbs: seq<Breadcrumb>, e: Entry): (o: Outcome)
    ensures o.event.breadcrumbs == o.crumbs
    ensures o.event.fingerprint == [FingerprintBase, "sentry_panic"] <==> !Enrichable(e)
    ensures !Enrichable(e) ==> o.event == Captured(FallbackEvent, o.crumbs)
  {
    match LoggerName(e)
    case Panics(p) => Recovered(crumbs, p)
    case Returns(name) =>
      match GinContext(e)
      case Panics(p) => Recovered(crumbs, p)
      case Returns(gin) =>
        // Enrichment reads the logger name again, which has just been read without a
        // panic, so it cannot panic here.
        var step := EnrichWithError(crumbs, e);
        match UserID(e)
        case Panics(p) => Recovered(step.crumbs, p)
        case Returns(id) => Outcome(step.crumbs, Captured(EventFor(e, name, gin, id), step.crumbs))
  }

  /** None of the entry's accessors panics. */
  predicate Enrichable(e: Entry) {
    LoggerName(e).Returns? && GinContext(e).Returns? && UserID(e).Returns?
  }

  // ---------------------------------------------------------------------------
  // Properties of the event pipeline

  /** A well-formed entry yields the enriched event, carrying the scope's breadcrumbs. */
  lemma DispatchEnriched(crumbs: seq<Breadcrumb>, e: Entry)
    requires Enrichable(e)
    ensures var c := EnrichWithError(crumbs, e).crumbs;
      Dispatch(crumbs, e) == Outcome(c,
        Captured(EventFor(e, LoggerName(e).value, GinContext(e).value, UserID(e).value), c))
  {
  }

  /** A scope within the breadcrumb limit stays within it, whatever the entry. */
  lemma DispatchWithinLimit(crumbs: seq<Breadcrumb>, e: Entry)
    requires |crumbs| <= BreadcrumbLimit
    ensures |Dispatch(crumbs, e).crumbs| <= BreadcrumbLimit
  {
  }

  /** With a request bound, the fingerprint is the route's, whatever the logger name. */
  lemma RouteFingerprintWins(crumbs: seq<Breadcrumb>, e: Entry, g: GinRequest)
    requires Enrichable(e) && GinContext(e) == Returns(Some(g))
    ensures Dispatch(crumbs, e).event.fingerprint == [FingerprintBase, g.httpMethod, g.fullPath, e.message]
  {
  }

  /** Without a request, the fingerprint groups by logger name and message, or is empty
      for an unnamed logger; `Logger` is set exactly when the name is non-empty. */
  lemma NameFingerprint(crumbs: seq<Breadcrumb>, e: Entry)
    requires Enrichable(e) && GinContext(e) == Returns(None)
    ensures var ev := Dispatch(crumbs, e).event; var name := LoggerName(e).value;
      && (name != "" ==> ev.fingerprint == [FingerprintBase, name, e.message] && ev.logger == name)
      && (name == "" ==> ev.fingerprint == [] && ev.logger == "")
  {
  }

  /** Entries that agree on logger name and message, with no request, get one fingerprint. */
  lemma FingerprintDeterministic(c1: seq<Breadcrumb>, e1: Entry, c2: seq<Breadcrumb>, e2: Entry)
    requires Enrichable(e1) && Enrichable(e2)
    requires GinContext(e1) == Returns(None) && GinContext(e2) == Returns(None)
    requires LoggerName(e1) == LoggerName(e2) && e1.message == e2.message
    ensures Dispatch(c1, e1).event.fingerprint == Dispatch(c2, e2).event.fingerprint
  {
  }

  /** The user is set, with the context's id, exactly when that id is non-empty. */
  lemma UserSetIffID(crumbs: seq<Breadcrumb>, e: Entry)
    requires Enrichable(e)
    ensures var ev := Dispatch(crumbs, e).event;
      && (ev.user.Some? <==> UserID(e).value != "")
      && (ev.user.Some? ==> ev.user.value == User(UserID(e).value))
  {
  }

  /** Without an attached error the scope's breadcrumbs are left alone. */
  lemma NoErrorNoCrumbs(crumbs: seq<Breadcrumb>, e: Entry)
    requires Enrichable(e) && Error(e).None?
    ensures Dispatch(crumbs, e).crumbs == crumbs
  {
  }

  /** With an error attached, the trail ends in the query crumb (only for a `query` error)
      and then the error crumb, keeping the five most recent crumbs. */
  lemma ErrorTrail(crumbs: seq<Breadcrumb>, e: Entry)
    requires Enrichable(e) && Error(e).Some?
    requires |crumbs| <= BreadcrumbLimit
    ensures var err := Error(e).value;
      Dispatch(crumbs, e).crumbs ==
        Recent(crumbs + QueryCrumbs(err, e.time) + [ErrorCrumb(LoggerName(e).value, err, e.time)], BreadcrumbLimit)
    ensures |Dispatch(crumbs, e).crumbs| <= BreadcrumbLimit
  {
    var err := Error(e).value;
    var added := QueryCrumbs(err, e.time) + [ErrorCrumb(LoggerName(e).value, err, e.time)];
    AddCrumbsKeepsMostRecent(crumbs, added, BreadcrumbLimit);
    assert crumbs + QueryCrumbs(err, e.time) + [ErrorCrumb(LoggerName(e).value, err, e.time)] == crumbs + added;
  }

  /** A logger name that is not a string makes the pipeline panic at once: only the
      fallback event is submitted, after the panic's message is added as a crumb. */
  lemma BadNameFallsBack(crumbs: seq<Breadcrumb>, e: Entry)
    requires LoggerName(e).Panics?
    ensures var o := Dispatch(crumbs, e);
      && o.crumbs == AddCrumb(crumbs, PanicCrumb(LoggerName(e).panic.err.text), BreadcrumbLimit)
      && o.event == Captured(FallbackEvent, o.crumbs)
      && o.event.level == "error" && o.event.message == PanicEventMessage
      && o.event.fingerprint == [FingerprintBase, "sentry_panic"]
  {
  }

  /** A user id bound to a non-string panics after the error crumbs were added: those
      crumbs stay in the scope and the fallback event carries them. */
  lemma BadUserFallsBack(crumbs: seq<Breadcrumb>, e: Entry)
    requires LoggerName(e).Returns? && GinContext(e).Returns? && UserID(e).Panics?
    ensures var c := EnrichWithError(crumbs, e).crumbs;
      Dispatch(crumbs, e) == Recovered(c, UserID(e).panic)
    ensures Dispatch(crumbs, e).event.fingerprint == [FingerprintBase, "sentry_panic"]
  {
  }

  /** A request binding of the wrong type panics before anything is added: only the
      fallback event is submitted, over the crumbs the scope had. */
  lemma BadGinFallsBack(crumbs: seq<Breadcrumb>, e: Entry)
    requires LoggerName(e).Returns? && GinContext(e).Panics?
    ensures Dispatch(crumbs, e) == Recovered(crumbs, GinContext(e).panic)
    ensures Dispatch(crumbs, e).event.fingerprint == [FingerprintBase, "sentry_panic"]
  {
  }

  /** A panic value that is neither an error nor a string leaves no breadcrumb. */
  lemma OtherPanicNoCrumb(crumbs: seq<Breadcrumb>, p: Value)
    requires !p.VError? && !p.VString?
    ensures Recovered(crumbs, p) == Outcome(crumbs, Captured(FallbackEvent, crumbs))
  {
  }

  /** An error that describes the query "SELECT 1" with no arguments leaves the query
      crumb, then the error crumb, on an empty scope. */
  lemma QueryErrorScenario(t: int)
    ensures var q := QueryView("SELECT 1", []);
      var err := ErrorValue("*db.QueryError", "no rows", None, Some(q));
      var e := Entry(ErrorLevel, "lookup failed", t,
        map[KeyLoggerName := VString("api.orders"), ErrorKey := VError(err)], None);
      Dispatch([], e).crumbs == [QueryCrumb(q, t), ErrorCrumb("api.orders", err, t)]
  {
    var q := QueryView("SELECT 1", []);
    var err := ErrorValue("*db.QueryError", "no rows", None, Some(q));
    var e := Entry(ErrorLevel, "lookup failed", t,
      map[KeyLoggerName := VString("api.orders"), ErrorKey := VError(err)], None);
    assert Error(e) == Some(err);
    assert LoggerName(e) == Returns("api.orders");
  }

  /** An error logged with user "u1" and no request: the event names the user and is
      grouped by logger name and message. */
  lemma UserScenario(t: int)
    ensures var e := Entry(ErrorLevel, "not found", t, map[KeyLoggerName := VString("api.orders")],
        Some(WithValue(Background, KeyUserID, VString("u1"))));
      var ev := Dispatch([], e).event;
      ev.user == Some(User("u1")) && ev.fingerprint == [FingerprintBase, "api.orders", "not found"]
  {
    var e := Entry(ErrorLevel, "not found", t, map[KeyLoggerName := VString("api.orders")],
      Some(WithValue(Background, KeyUserID, VString("u1"))));
    assert LoggerName(e) == Returns("api.orders");
    assert GinContext(e) == Returns(None);
    assert UserID(e) == Returns("u1");
  }

  // ---------------------------------------------------------------------------
  // The imperative pipeline

  /** Lines building the event in `Fire`, before enrichment and the user. */
  method BuildEvent(e: Entry, name: string, gin: Option<GinRequest>) returns (event: Event)
    ensures event == EventFor(e, name, gin, "")
  {
    event := NewEvent;
    event := event.(level := LevelString(e.level));
    event := event.(message := e.message);
    event := event.(extra := e.data);
    event := event.(timestamp := e.time);
    if name != "" {
      event := event.(logger := name);
      event := event.(fingerprint := event.fingerprint + [name]);
    }
    if gin.Some? {
      event := event.(fingerprint := [FingerprintBase, gin.value.httpMethod, gin.value.fullPath, e.message]);
    } else if name != "" {
      event := event.(fingerprint := [FingerprintBase, name, e.message]);
    }
  }

  /** `enrichEventWithError(hub, entry)`; returns the panic that stopped it, if any. */
  method EnrichEventWithError(hub: Hub, e: Entry) returns (panic: Option<Value>)
    modifies hub
    ensures hub.breadcrumbs == EnrichWithError(old(hub.breadcrumbs), e).crumbs
    ensures panic == EnrichWithError(old(hub.breadcrumbs), e).panic
    ensures hub.captured == old(hub.captured) && hub.request == old(hub.request)
  {
    panic := None;
    var err := Error(e);
    if err.Some? {
      var probe := TryCoerceQuery(VError(err.value), (q: QueryView) => QueryCrumb(q, e.time));
      if probe.ok {
        hub.AddBreadcrumb(probe.invoked[0], BreadcrumbLimit);
      }
      var name := LoggerName(e);
      if name.Panics? {
        panic := Some(name.panic);
        return;
      }
      hub.AddBreadcrumb(ErrorCrumb(name.value, err.value, e.time), BreadcrumbLimit);
    }
  }

  /** `recoverFromLogging(hub)`; `recovered` is what `recover()` returned (nil: no panic). */
  method RecoverFromLogging(hub: Hub, recovered: Value)
    modifies hub
    ensures recovered != VNil ==>
      && hub.breadcrumbs == Recovered(old(hub.breadcrumbs), recovered).crumbs
      && hub.captured == old(hub.captured) + [Recovered(old(hub.breadcrumbs), recovered).event]
    ensures recovered == VNil ==> hub.breadcrumbs == old(hub.breadcrumbs) && hub.captured == old(hub.captured)
    ensures hub.request == old(hub.request)
  {
    if recovered != VNil {
      var event := NewEvent;
      event := event.(level := "error");
      event := event.(message := PanicEventMessage);
      event := event.(fingerprint := [FingerprintBase, "sentry_panic"]);
      if recovered.VError? {
        hub.AddBreadcrumb(PanicCrumb(recovered.err.text), BreadcrumbLimit);
      } else if recovered.VString? {
        hub.AddBreadcrumb(PanicCrumb(recovered.str), BreadcrumbLimit);
      }
      hub.CaptureEvent(event);
    }
  }

  /** The goroutine `Fire` starts, run to completion on `hub`: exactly one event is
      captured, the enriched one or the fallback. */
  method RunDispatch(hub: Hub, e: Entry)
    modifies hub
    ensures hub.breadcrumbs == Dispatch(old(hub.breadcrumbs), e).crumbs
    ensures hub.captured == old(hub.captured) + [Dispatch(old(hub.breadcrumbs), e).event]
    ensures hub.request == old(hub.request)
  {
    var name := LoggerName(e);
    if name.Panics? {
      RecoverFromLogging(hub, name.panic);
      return;
    }
    var gin := GinContext(e);
    if gin.Panics? {
      RecoverFromLogging(hub, gin.panic);
      return;
    }
    var event := BuildEvent(e, name.value, gin.value);
    var panic := EnrichEventWithError(hub, e);
    // It reads the logger name again, which has just been read without a panic.
    assert panic == None;
    var id := UserID(e);
    if id.Panics? {
      RecoverFromLogging(hub, id.panic);
      return;
    }
    if id.value != "" {
      event := event.(user := Some(User(id.value)));
    }
    hub.CaptureEvent(event);
  }

  // ---------------------------------------------------------------------------
  // The manager

  /** `SentryManager`: the base hub, the levels reported to Sentry and the output minimum. */
  class SentryManager {
    const hub: Hub
    const errorLevels: seq<Level>
    const logLevel: Level

    constructor (hub: Hub, errorLevels: seq<Level>, logLevel: Level)
      ensures this.hub == hub && this.errorLevels == errorLevels && this.logLevel == logLevel
    {
      this.hub := hub;
      this.errorLevels := errorLevels;
      this.logLevel := logLevel;
    }

    /** `Levels()`: the hook fires for exactly these levels. */
    function Levels(): (ls: seq<Level>)
      ensures ls == errorLevels
    {
      errorLevels
    }

    /** Breadcrumbs of the hub `Fire` will use, before it runs. */
    function StartCrumbs(e: Entry): seq<Breadcrumb>
      reads hub, ContextHubs(e)
    {
      if ContextHub(e) != null then ContextHub(e).breadcrumbs else hub.breadcrumbs
    }

    /** Events already submitted through the hub `Fire` will use (none on a fresh clone). */
    function StartCaptured(e: Entry): seq<Event>
      reads ContextHubs(e)
    {
      if ContextHub(e) != null then ContextHub(e).captured else []
    }

    /** `Fire(entry)`: the request's hub when the entry carries one, else a fresh clone of
        the base hub; the goroutine's work is done before returning. */
    method Fire(e: Entry) returns (used: Hub)
      modifies ContextHubs(e)
      ensures ContextHub(e) != null ==> used == ContextHub(e) && used.request == old(used.request)
      ensures ContextHub(e) == null ==> fresh(used) && used.request == hub.request
      ensures used.breadcrumbs == Dispatch(old(StartCrumbs(e)), e).crumbs
      ensures used.captured == old(StartCaptured(e)) + [Dispatch(old(StartCrumbs(e)), e).event]
      ensures |old(StartCrumbs(e))| <= BreadcrumbLimit ==> |used.breadcrumbs| <= BreadcrumbLimit
    {
      var h := ContextHub(e);
      if h == null {
        h := hub.Clone();
      }
      RunDispatch(h, e);
      used := h;
      if |old(StartCrumbs(e))| <= BreadcrumbLimit {
        DispatchWithinLimit(old(StartCrumbs(e)), e);
      }
    }

    /** `WithRequestContext(c)`: a clone of the base hub bound to the request, stored in
        the request's keys under "sentry_hub". */
    method WithRequestContext(c: GinRequest, keys: map<string, Value>)
      returns (h: Hub, keys': map<string, Value>)
      ensures fresh(h)
      ensures h.breadcrumbs == hub.breadcrumbs && h.request == Some(c) && h.captured == []
      ensures keys' == keys[KeySentryHub := VHub(h)]
    {
      h := hub.Clone();
      h.SetRequest(c);
      keys' := keys[KeySentryHub := VHub(h)];
    }
  }

  /** An entry whose context is a request's keys after `WithRequestContext` uses that hub. */
  lemma RequestHubIsUsed(keys: map<string, Value>, h: Hub, e: Entry)
    requires e.context == Some(RequestKeys(keys[KeySentryHub := VHub(h)]))
    ensures ContextHub(e) == h
  {
  }

  // ---------------------------------------------------------------------------
  // Construction

  /** Every name in the list is a level. */
  predicate AllParse(names: seq<string>) {
    forall i :: 0 <= i < |names| ==> ParseLevel(names[i]).Ok?
  }

  /** `i` is the first name in the list that is not a level. */
  predicate FirstBad(names: seq<string>, i: int) {
    && 0 <= i < |names|
    && ParseLevel(names[i]).Err?
    && forall j :: 0 <= j < i ==> ParseLevel(names[j]).Ok?
  }

  /** `levels` are the names parsed, in order. */
  predicate ParsedAs(names: seq<string>, levels: seq<Level>) {
    && |levels| == |names|
    && forall i :: 0 <= i < |names| ==> ParseLevel(names[i]) == Ok(levels[i])
  }

  /** The loop of `NewSentryManager` over `LogLevels`: all names parsed in order, or the
      error for the first bad one. */
  method ParseErrorLevels(names: seq<string>) returns (r: Result<seq<Level>>)
    ensures r.Ok? <==> AllParse(names)
    ensures r.Ok? ==> ParsedAs(names, r.value)
    ensures r.Err? ==> exists i :: FirstBad(names, i) && r.error == "set error levels: " + ParseLevel(names[i]).error
  {
    var levels: seq<Level> := [];
    var i := 0;
    while i < |names|
      invariant 0 <= i <= |names|
      invariant ParsedAs(names[..i], levels)
      invariant forall j :: 0 <= j < i ==> ParseLevel(names[j]).Ok?
    {
      var parsed := ParseLevel(names[i]);
      if parsed.Err? {
        assert FirstBad(names, i);
        return Err("set error levels: " + parsed.error);
      }
      levels := levels + [parsed.value];
      i := i + 1;
    }
    assert names[..i] == names;
    return Ok(levels);
  }

  /** `NewSentryManager(config, logLevel)`. `clientError` is the error `sentry.NewClient`
      returns for the configured DSN, environment and release, if any. Any failure
      returns no manager. */
  method NewSentryManager(config: SentryConfig, logLevel: string, clientError: Option<string>)
    returns (m: SentryManager?, err: Option<string>)
    ensures m == null <==> err.Some?
    ensures clientError.Some? ==> err == clientError
    ensures clientError.None? && !AllParse(config.logLevels) ==>
      exists i :: FirstBad(config.logLevels, i) && err == Some("set error levels: " + ParseLevel(config.logLevels[i]).error)
    ensures clientError.None? && AllParse(config.logLevels) && ParseLevel(logLevel).Err? ==>
      err == Some("set log level: " + ParseLevel(logLevel).error)
    ensures clientError.None? && AllParse(config.logLevels) && ParseLevel(logLevel).Ok? ==>
      && m != null && fresh(m) && fresh(m.hub)
      && ParsedAs(config.logLevels, m.Levels())
      && m.logLevel == ParseLevel(logLevel).value
      && m.hub.breadcrumbs == [] && m.hub.request == None && m.hub.captured == []
  {
    if clientError.Some? {
      return null, clientError;
    }
    var base := new Hub();
    var levels := ParseErrorLevels(config.logLevels);
    if levels.Err? {
      return null, Some(levels.error);
    }
    var parsedLogLevel := ParseLevel(logLevel);
    if parsedLogLevel.Err? {
      return null, Some("set log level: " + parsedLogLevel.error);
    }
    m := new SentryManager(base, levels.value, parsedLogLevel.value);
    err := None;
  }
}
