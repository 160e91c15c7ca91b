/** Plain Dafny models of the foreign types the package handles: Go's dynamic values
    (`interface{}`), error values, `context.Context` chains, the gin request, and sentry's
    breadcrumbs, events and hub. */
module Foreign {
  import opened Wrappers

  /** The part of a `*gin.Context` the package reads: request method and route pattern. */
  datatype GinRequest = GinRequest(httpMethod: string, fullPath: string)

  /** One thing a gin handler does to its request, recorded in order. */
  datatype GinCall =
    | Next                          // c.Next(): run the downstream handlers
    | Handler                       // a wrapped handler(c) call
    | RecordError(err: ErrorValue)  // c.Error(err)
    | Abort                         // c.Abort()
    | AbortWithStatus(code: int)    // c.AbortWithStatus(code)

  /** What a value implementing the package's `query` interface answers. */
  datatype QueryView = QueryView(body: string, args: seq<Value>)

  /** A Go error value: its dynamic type, what `Error()` returns, the wrapped `Err` field of
      a `*net.OpError` (if any), and its answers when it implements `query`. */
  datatype ErrorValue = ErrorValue(
    typeName: string,
    text: string,
    cause: Option<ErrorValue>,
    query: Option<QueryView>)

  /** A Go `interface{}` value: a field value, a context binding or a recovered panic. */
  datatype Value =
    | VNil
    | VString(str: string)
    | VInt(num: int)
    | VBool(flag: bool)
    | VSlice(items: seq<Value>)
    | VError(err: ErrorValue)
    | VGin(gin: GinRequest)
    | VHub(hub: Hub?)
    | VOther(typeName: string)

  /** The outcome of code that may panic: it returns a value or panics with one. */
  datatype Checked<+T> = Returns(value: T) | Panics(panic: Value)

  /** The dynamic type name Go prints for a value. */
  function TypeName(v: Value): string {
    match v
    case VNil => "nil"
    case VString(_) => "string"
    case VInt(_) => "int"
    case VBool(_) => "bool"
    case VSlice(_) => "[]interface {}"
    case VError(e) => e.typeName
    case VGin(_) => "*gin.Context"
    case VHub(_) => "*sentry.Hub"
    case VOther(t) => t
  }

  /** The panic value of a failed unchecked type assertion `v.(want)`: a runtime error. */
  function AssertionPanic(v: Value, want: string): Value {
    VError(ErrorValue(
      "*runtime.TypeAssertionError",
      "interface conversion: interface {} is " + TypeName(v) + ", not " + want,
      None, None))
  }

  /** A `context.Context`. `WithValue` is `context.WithValue(parent, key, val)`; `RequestKeys`
      is a gin context used as the context, whose `Value` reads its key map. */
  datatype Context =
    | Background
    | WithValue(parent: Context, key: string, val: Value)
    | RequestKeys(keys: map<string, Value>)

  /** `Context.Value(key)`: the nearest binding of `key`, else nil. */
  function ContextValue(ctx: Context, key: string): Value {
    match ctx
    case Background => VNil
    case WithValue(p, k, v) => if k == key then v else ContextValue(p, key)
    case RequestKeys(keys) => if key in keys then keys[key] else VNil
  }

  /** The `WithValue` bindings of a chain, oldest first. */
  function Bindings(ctx: Context): seq<(string, Value)> {
    match ctx
    case WithValue(p, k, v) => Bindings(p) + [(k, v)]
    case _ => []
  }

  /** The context a chain of `WithValue` layers was derived from. */
  function Root(ctx: Context): Context {
    match ctx
    case WithValue(p, _, _) => Root(p)
    case _ => ctx
  }

  /** The value of the most recently added binding of `key` in `bs`. */
  function LastBinding(bs: seq<(string, Value)>, key: string): Option<Value> {
    if bs == [] then None
    else if bs[|bs| - 1].0 == key then Some(bs[|bs| - 1].1)
    else LastBinding(bs[..|bs| - 1], key)
  }

  /** A context lookup sees the latest binding of its key, in derivation order; a key
      never bound falls through to the root context. */
  lemma {:induction false} ValueIsLatestBinding(ctx: Context, key: string)
    ensures ContextValue(ctx, key) ==
      match LastBinding(Bindings(ctx), key)
      case Some(v) => v
      case None => ContextValue(Root(ctx), key)
  {
    match ctx
    case WithValue(p, k, v) =>
      ValueIsLatestBinding(p, key);
      var bs := Bindings(p) + [(k, v)];
      assert bs[..|bs| - 1] == Bindings(p);
    case Background =>
    case RequestKeys(_) =>
  }

  /** `sentry.Breadcrumb`. `kind` is its `Type`; a zero `timestamp` means unset. */
  datatype Breadcrumb = Breadcrumb(
    kind: string,
    category: string,
    message: string,
    data: map<string, Value>,
    level: string,
    timestamp: int)

  /** `sentry.User`, reduced to the identifier the package sets. */
  datatype User = User(id: string)

  /** `sentry.Event`, reduced to the fields the package sets; `user == None` is the zero User. */
  datatype Event = Event(
    level: string,
    message: string,
    extra: map<string, Value>,
    timestamp: int,
    logger: string,
    fingerprint: seq<string>,
    user: Option<User>,
    breadcrumbs: seq<Breadcrumb>)

  /** `sentry.NewEvent()`. */
  const NewEvent := Event("", "", map[], 0, "", [], None, [])

  /** The event as submitted: the scope's breadcrumbs are appended to the event's own. */
  function Captured(e: Event, scopeCrumbs: seq<Breadcrumb>): Event {
    e.(breadcrumbs := e.breadcrumbs + scopeCrumbs)
  }

  /** `Scope.AddBreadcrumb(b, limit)`: append, then keep Go's `crumbs[1 : limit+1]` when
      that is over the limit. Below the limit the crumb is appended; at the limit the
      oldest is dropped; above it the new crumb itself is dropped. */
  function AddCrumb(crumbs: seq<Breadcrumb>, b: Breadcrumb, limit: nat): (r: seq<Breadcrumb>)
    ensures |crumbs| < limit ==> r == crumbs + [b]
    ensures 0 < limit == |crumbs| ==> r == crumbs[1..] + [b]
    ensures |crumbs| > limit ==> r == crumbs[1..limit + 1]
    ensures limit == 0 ==> r == []
    ensures |r| == if |crumbs| < limit then |crumbs| + 1 else limit
  {
    var all := crumbs + [b];
    if |all| > limit then all[1..limit + 1] else all
  }

  /** Breadcrumbs added one after the other, each with the same limit. */
  function AddCrumbs(crumbs: seq<Breadcrumb>, bs: seq<Breadcrumb>, limit: nat): seq<Breadcrumb>
    decreases |bs|
  {
    if bs == [] then crumbs else AddCrumbs(AddCrumb(crumbs, bs[0], limit), bs[1..], limit)
  }

  lemma AddCrumbsOne(crumbs: seq<Breadcrumb>, b: Breadcrumb, limit: nat)
    ensures AddCrumbs(crumbs, [b], limit) == AddCrumb(crumbs, b, limit)
  {
    assert [b][1..] == [];
  }

  lemma AddCrumbsTwo(crumbs: seq<Breadcrumb>, a: Breadcrumb, b: Breadcrumb, limit: nat)
    ensures AddCrumbs(crumbs, [a, b], limit) == AddCrumb(AddCrumb(crumbs, a, limit), b, limit)
  {
    assert [a, b][1..] == [b];
    AddCrumbsOne(AddCrumb(crumbs, a, limit), b, limit);
  }

  /** At most one crumb, then `b`. */
  lemma AddCrumbsThen(crumbs: seq<Breadcrumb>, q: seq<Breadcrumb>, b: Breadcrumb, limit: nat)
    requires |q| <= 1
    ensures AddCrumbs(crumbs, q + [b], limit) ==
      AddCrumb(if q == [] then crumbs else AddCrumb(crumbs, q[0], limit), b, limit)
  {
    if q == [] {
      assert q + [b] == [b];
      AddCrumbsOne(crumbs, b, limit);
    } else {
      assert q + [b] == [q[0], b];
      AddCrumbsTwo(crumbs, q[0], b, limit);
    }
  }

  /** The last `k` elements of `s` (all of `s` when it is shorter). */
  function Recent<T>(s: seq<T>, k: nat): (r: seq<T>)
    ensures |r| <= k && |r| <= |s|
  {
    if |s| <= k then s else s[|s| - k..]
  }

  lemma RecentOfRecent<T>(x: seq<T>, y: seq<T>, k: nat)
    ensures Recent(Recent(x, k) + y, k) == Recent(x + y, k)
  {
    if |x| > k {
      var rx := Recent(x, k);
      var lhs := Recent(rx + y, k);
      var rhs := Recent(x + y, k);
      assert |lhs| == |rhs|;
      forall j | 0 <= j < |lhs| ensures lhs[j] == rhs[j] {
        if j + |rx| + |y| - |lhs| < |rx| {
          assert lhs[j] == rx[j + |rx| + |y| - |lhs|];
        }
      }
    }
  }

  /** Below the limit, one `AddBreadcrumb` keeps the most recent `limit` crumbs. */
  lemma AddCrumbKeepsRecent(crumbs: seq<Breadcrumb>, b: Breadcrumb, limit: nat)
    requires |crumbs| <= limit
    ensures AddCrumb(crumbs, b, limit) == Recent(crumbs + [b], limit)
  {
  }

  /** A scope that starts within its capacity keeps exactly the `limit` most recent of all
      breadcrumbs ever added to it, oldest evicted first, and never holds more. */
  lemma {:induction false} AddCrumbsKeepsMostRecent(crumbs: seq<Breadcrumb>, bs: seq<Breadcrumb>, limit: nat)
    requires |crumbs| <= limit
    ensures AddCrumbs(crumbs, bs, limit) == Recent(crumbs + bs, limit)
    ensures |AddCrumbs(crumbs, bs, limit)| <= limit
    decreases |bs|
  {
    if bs != [] {
      var c1 := AddCrumb(crumbs, bs[0], limit);
      AddCrumbKeepsRecent(crumbs, bs[0], limit);
      AddCrumbsKeepsMostRecent(c1, bs[1..], limit);
      RecentOfRecent(crumbs + [bs[0]], bs[1..], limit);
      assert crumbs + [bs[0]] + bs[1..] == crumbs + bs;
    }
  }

  /** A `*sentry.Hub` together with its scope: the scope's breadcrumbs and request, and the
      events submitted through the hub (the network transport is not modelled). */
  class Hub {
    var breadcrumbs: seq<Breadcrumb>
    var request: Option<GinRequest>
    var captured: seq<Event>

    /** `sentry.NewHub(client, sentry.NewScope())`: an empty scope. */
    constructor ()
      ensures breadcrumbs == [] && request == None && captured == []
    {
      breadcrumbs, request, captured := [], None, [];
    }

    /** `Hub.Clone()`: a fresh hub whose scope copies this one's; nothing submitted yet. */
    method Clone() returns (h: Hub)
      ensures fresh(h)
      ensures h.breadcrumbs == breadcrumbs && h.request == request && h.captured == []
    {
      h := new Hub();
      h.breadcrumbs := breadcrumbs;
      h.request := request;
    }

    /** `Scope.SetRequest(r)`. */
    method SetRequest(r: GinRequest)
      modifies this
      ensures request == Some(r)
      ensures breadcrumbs == old(breadcrumbs) && captured == old(captured)
    {
      request := Some(r);
    }

    /** `Scope.AddBreadcrumb(b, limit)`. */
    method AddBreadcrumb(b: Breadcrumb, limit: nat)
      modifies this
      ensures breadcrumbs == AddCrumb(old(breadcrumbs), b, limit)
      ensures request == old(request) && captured == old(captured)
    {
      breadcrumbs := AddCrumb(breadcrumbs, b, limit);
    }

    /** `Hub.CaptureEvent(e)`: submit the event with the scope's breadcrumbs applied. */
    method CaptureEvent(e: Event)
      modifies this
      ensures captured == old(captured) + [Captured(e, breadcrumbs)]
      ensures breadcrumbs == old(breadcrumbs) && request == old(request)
    {
      captured := captured + [Captured(e, breadcrumbs)];
    }
  }
}
