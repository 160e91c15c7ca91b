/** The convenience accessors over a logrus entry. Each looks a key up in the entry's field
    map or context chain and gives the empty value when the key is missing; the unchecked
    type assertions of the source panic on a binding of the wrong type. */
module Entries {
  import opened Wrappers
  import opened Logrus
  import opened Foreign

  /** Field key holding the dotted logger name. */
  const KeyLoggerName := "zone"
  /** Context key binding the user id. */
  const KeyUserID := "user_id"
  /** Context key binding the gin request. */
  const KeyGinContext := "gin_context"

  /** A `*logrus.Entry` as handed to a hook: level, message, time, fields and context.
      A nil `Data` map reads like an empty one; a nil `Context` is `None`. */
  datatype Entry = Entry(
    level: Level,
    message: string,
    time: int,
    data: map<string, Value>,
    context: Option<Context>)

  /** `LoggerName()`: the string under "zone", "" when there is none. */
  function LoggerName(e: Entry): (r: Checked<string>)
    ensures r == Returns("") <==> KeyLoggerName !in e.data || e.data[KeyLoggerName] == VString("")
    ensures r.Returns? && r.value != "" ==> KeyLoggerName in e.data && e.data[KeyLoggerName] == VString(r.value)
    ensures r.Panics? <==> KeyLoggerName in e.data && !e.data[KeyLoggerName].VString?
    ensures r.Panics? ==> r.panic == AssertionPanic(e.data[KeyLoggerName], "string")
  {
    if KeyLoggerName in e.data then
      var name := e.data[KeyLoggerName];
      if name.VString? then Returns(name.str) else Panics(AssertionPanic(name, "string"))
    else
      Returns("")
  }

  /** The value an entry's context binds to `key`; nil when the context is nil. */
  function Bound(e: Entry, key: string): Value {
    if e.context.Some? then ContextValue(e.context.value, key) else VNil
  }

  /** `UserID()`: the most recent "user_id" binding, "" when unbound or bound to nil. */
  function UserID(e: Entry): (r: Checked<string>)
    ensures e.context.None? ==> r == Returns("")
    ensures r == Returns("") <==> Bound(e, KeyUserID) == VNil || Bound(e, KeyUserID) == VString("")
    ensures r.Returns? && r.value != "" ==> Bound(e, KeyUserID) == VString(r.value)
    ensures r.Panics? <==> !Bound(e, KeyUserID).VNil? && !Bound(e, KeyUserID).VString?
  {
    if e.context.Some? then
      var id := ContextValue(e.context.value, KeyUserID);
      if id.VNil? then Returns("")
      else if id.VString? then Returns(id.str)
      else Panics(AssertionPanic(id, "string"))
    else
      Returns("")
  }

  /** `GinContext()`: the bound gin request, nil when unbound. */
  function GinContext(e: Entry): (r: Checked<Option<GinRequest>>)
    ensures r == Returns(None) <==> Bound(e, KeyGinContext) == VNil
    ensures r.Returns? && r.value.Some? ==> Bound(e, KeyGinContext) == VGin(r.value.value)
    ensures r.Panics? <==> !Bound(e, KeyGinContext).VNil? && !Bound(e, KeyGinContext).VGin?
  {
    if e.context.Some? then
      var c := ContextValue(e.context.value, KeyGinContext);
      if c.VNil? then Returns(None)
      else if c.VGin? then Returns(Some(c.gin))
      else Panics(AssertionPanic(c, "*gin.Context"))
    else
      Returns(None)
  }

  /** `Error()`: the error stored under logrus's error key; absent for any other value.
      It never panics (a checked assertion). */
  function Error(e: Entry): (r: Option<ErrorValue>)
    ensures r.Some? <==> ErrorKey in e.data && e.data[ErrorKey].VError?
    ensures r.Some? ==> e.data[ErrorKey] == VError(r.value)
  {
    if ErrorKey in e.data && e.data[ErrorKey].VError? then Some(e.data[ErrorKey].err) else None
  }

  /** `UserID()` reads the latest "user_id" binding of the context chain, or the chain's
      root when the id was never bound by `WithValue`. */
  lemma UserIDIsLatestBinding(e: Entry)
    requires e.context.Some?
    ensures match LastBinding(Bindings(e.context.value), KeyUserID)
      case Some(VString(id)) => UserID(e) == Returns(id)
      case Some(VNil) => UserID(e) == Returns("")
      case Some(_) => UserID(e).Panics?
      case None => Bound(e, KeyUserID) == ContextValue(Root(e.context.value), KeyUserID)
  {
    ValueIsLatestBinding(e.context.value, KeyUserID);
  }
}
