# logmgr in Dafny

A model of the core of `logmgr`, a Go package that joins logrus logging to Sentry error
reporting and gin request handling. It covers:

- **Event enrichment** (`manager.go`). The Sentry hook turns a fired log entry into one Sentry
  event. It picks the hub bound under "sentry_hub" in the entry's own context chain, or else a
  clone of the manager's base hub. It copies
  the entry's level, message, fields and time. It builds the fingerprint: the request route
  wins over the logger name, which wins over nothing. It sets the user when a non-empty user id is bound.
  It adds a query breadcrumb and an error breadcrumb when an error is attached, each with
  limit 5. A panic while doing this is caught, and a fixed fallback event is submitted instead.
- **Manager construction** (`NewSentryManager`). The configured level names are parsed in order.
  Any bad name, a bad output level or a client error gives no manager.
- **Logger derivation** (`logger.go`). `Extend` builds a dotted name path. `WithUser` and
  `WithGin` bind values in the receiver's own context. `Recovery` tells a broken-pipe panic
  apart from any other panic and decides the response.
- **Entry accessors** (`entry.go`), the **nop logger** (`nop.go`) and the **query capability
  probe** (`coerce.go`).

Modules follow the source files: `Entries` (entry.go), `Coerce` (coerce.go), `Manager`
(manager.go), `Loggers` (logger.go), `Nop` (nop.go) and `Config` (config.go). Beside them,
`Foreign` holds plain models of the foreign types it uses:
- Go's `interface{}` values, error values and `context.Context` chains;
- the gin request;
- sentry's breadcrumb and event, and the hub with its scope. The hub is a class holding a
  breadcrumb `seq` and the `seq` of events captured through it.

`Logrus` holds the levels and `ParseLevel`. `Strings` holds `ToLower`, `Contains`, `Join` and
`%q`.

Go panics are outcome values. An accessor whose unchecked type assertion fails returns
`Panics(v)`, where `v` is the runtime error Go would raise. `Manager.Dispatch` is the body of
`Fire`'s goroutine as a function of the scope's breadcrumbs and the entry. `Manager.RunDispatch`
does the same work step by step on a `Hub` and is proved equal to it. Breadcrumbs added before
a panic stay in the scope, as in the source.

Because Dafny modules cannot import each other in a cycle, `SentryManager.NewLogger` is the
module-level method `Loggers.NewLogger(m, name)`.

Behaviour of the code worth noting:
- The fallback event's fingerprint is `["api", "sentry_panic"]`.
- `Extend` gives the child's logrus instance the parent's `level` field. It leaves the child's
  own `level` field at zero (PanicLevel), so a grandchild's logrus instance is at PanicLevel
  (`Loggers.ExtendTwice`).
- `WithUser` and `WithGin` change the receiver's own context in place.
- `WithRequestContext` sets only the request on the cloned scope.
- A logger's context is a chain of `context.WithValue` layers over Background, and the
  `*gin.Context` is bound in it as a value. The hub that `WithRequestContext` stores in the
  request's keys is therefore never found from such a context. The entry `Recovery` logs is
  reported on a fresh clone of the base hub, without the request's breadcrumbs
  (`Loggers.LoggerContextHasNoHub`).

## Model

| member | source | states |
|---|---|---|
| `Strings.JoinAppend` | logger.go:53-54 | joining a concatenation of two non-empty paths is the two joins with one separator between them |
| `Logrus.ParseLevel` | manager.go:46-49 | a bad level name gives the error "not a valid logrus Level: %q" of that name |
| `Logrus.ParseLevelString` | manager.go:92 | every level's name, as the event carries it, parses back to that level |
| `Foreign.ValueIsLatestBinding` | entry.go:31-35 | a context lookup returns the most recent binding of the key in derivation order, else the root's answer |
| `Foreign.AddCrumb` | manager.go:157-176 | sentry's append-then-`[1:limit+1]`: below the limit the crumb is appended; at the limit the oldest is dropped; above it the new crumb is dropped; the length is the old length + 1 capped at the limit |
| `Foreign.AddCrumbKeepsRecent` | manager.go:14 | within capacity, one breadcrumb added with a limit keeps the most recent `limit` crumbs |
| `Foreign.AddCrumbsKeepsMostRecent` | manager.go:133-176 | a scope within capacity keeps exactly the `limit` most recent crumbs ever added, oldest evicted first, and never more |
| `Foreign.Hub.constructor` | manager.go:41 | a new scope has no breadcrumbs, no request and no captured events |
| `Foreign.Hub.Clone` | manager.go:84 | a clone is a fresh hub with the same breadcrumbs and request and no events captured |
| `Foreign.Hub.SetRequest` | manager.go:186 | the scope's request is set; crumbs and events are unchanged |
| `Foreign.Hub.AddBreadcrumb` | manager.go:157-176 | the scope's crumbs become `Foreign.AddCrumb` of the old ones (appended below the limit, oldest dropped at it, new crumb dropped above it); nothing else changes |
| `Foreign.Hub.CaptureEvent` | manager.go:118 | exactly one event is appended to the captured log, with the scope's breadcrumbs applied |
| `Entries.LoggerName` | entry.go:19-27 | "" when there is no "zone" field; the stored string otherwise; a panic with the type-assertion error when the value is not a string |
| `Entries.UserID` | entry.go:30-38 | "" for a nil context or a nil/missing binding; the bound string; a panic for a non-string binding |
| `Entries.GinContext` | entry.go:41-49 | none for a nil context or missing binding; the bound request; a panic for a binding of another type |
| `Entries.Error` | entry.go:52-58 | the value under logrus's error key exactly when it is an error, otherwise absent; never panics |
| `Entries.UserIDIsLatestBinding` | entry.go:30-38 | `UserID` reads the latest "user_id" binding of the context chain |
| `Coerce.TryCoerceQuery` | coerce.go:8-14 | true iff the value implements `query`; then the action runs exactly once, on the value's own query; otherwise never |
| `Manager.ContextHub` | manager.go:76-81 | a hub is taken from the context exactly when a non-nil hub is bound under "sentry_hub" |
| `Manager.Fingerprint` | manager.go:97-107 | route fingerprint when a request is bound; else `["api", name, message]` for a named logger; else empty; so never one or two elements long (never the transient `[name]`, never the fallback's) |
| `Manager.EventFor` | manager.go:91-116 | level string, message, fields and time copied; `Logger` set iff the name is non-empty; user set iff the id is non-empty, with that id |
| `Manager.QueryCrumb` | manager.go:157-167 | kind "query", category "db", message "database query", level "info", the entry's time, and data holding exactly the query body and its arguments |
| `Manager.ErrorCrumb` | manager.go:170-176 | kind and level "error", category the logger name, message the error's text, no data, the entry's time |
| `Manager.EnrichWithError` | manager.go:153-178 | no crumbs without an error; with one, the query crumb (only for a `query` error) then the error crumb, each added with limit 5 |
| `Manager.PanicCrumb` | manager.go:133-145 | kind "error", category "sentry.panic", level "fatal", the given message, no data, no timestamp |
| `Manager.PanicCrumbFor` | manager.go:132-146 | a crumb exactly for an error panic (with its text) or a string panic (with the string); none for any other value |
| `Manager.Recovered` | manager.go:125-150 | the fallback event is captured with the scope's crumbs; a crumb with the panic's message is added only for an error or a string |
| `Manager.Dispatch` | manager.go:87-119 | the goroutine body submits one event carrying the scope's final crumbs; it is the fallback exactly when an accessor panics |
| `Manager.DispatchWithinLimit` | manager.go:14 | a scope holding at most 5 crumbs still holds at most 5 after any entry |
| `Manager.DispatchEnriched` | manager.go:87-119 | an entry whose accessors do not panic yields exactly the enriched event, carrying the enriched scope's crumbs |
| `Manager.RouteFingerprintWins` | manager.go:103-104 | with a request bound, the fingerprint is `["api", method, FullPath, message]` whatever the logger name |
| `Manager.NameFingerprint` | manager.go:97-107 | with no request, `["api", name, message]` and `Logger = name` for a named logger; empty fingerprint and no logger otherwise |
| `Manager.FingerprintDeterministic` | manager.go:97-107 | entries that agree on logger name and message, with no request, get the same fingerprint |
| `Manager.UserSetIffID` | manager.go:112-116 | the event's user is set, with the context's id, exactly when the id is non-empty |
| `Manager.NoErrorNoCrumbs` | manager.go:155 | without an attached error the scope's breadcrumbs are unchanged |
| `Manager.ErrorTrail` | manager.go:153-178 | with an error, the trail is the five most recent of: the old crumbs, the query crumb if any, then the error crumb |
| `Manager.BadNameFallsBack` | manager.go:97 | a non-string logger name panics at once: only the fallback event, level error with fingerprint `["api","sentry_panic"]`, plus a crumb with the panic's message |
| `Manager.BadUserFallsBack` | manager.go:109-116 | a non-string user id panics after the error crumbs were added; they stay and the fallback event carries them |
| `Manager.BadGinFallsBack` | manager.go:103 | a request binding of the wrong type panics before any crumb is added: the fallback event over the scope's crumbs plus the panic's crumb |
| `Manager.OtherPanicNoCrumb` | manager.go:132-146 | a panic value that is neither an error nor a string adds no crumb |
| `Manager.QueryErrorScenario` | manager.go:156-176 | an error with query "SELECT 1" and no args leaves the query crumb and then the error crumb |
| `Manager.UserScenario` | manager.go:97-116 | user "u1" and no request: the event has user "u1" and fingerprint `["api", name, message]` |
| `Manager.BuildEvent` | manager.go:91-107 | the field-by-field construction, transient fingerprint included, ends in the specified event |
| `Manager.EnrichEventWithError` | manager.go:153-178 | the scope's crumbs become those of `EnrichWithError`; events and request are unchanged |
| `Manager.RecoverFromLogging` | manager.go:125-150 | after a panic exactly one fallback event is captured; with no panic nothing changes |
| `Manager.RunDispatch` | manager.go:87-119 | the goroutine body captures exactly one event and leaves the crumbs that `Dispatch` specifies |
| `Manager.SentryManager.constructor` | manager.go:58-62 | the manager holds the given hub, error levels and output level |
| `Manager.SentryManager.Levels` | manager.go:65-68 | the stored error levels, unchanged and in order (by `NewSentryManager`, the configured names parsed) |
| `Manager.SentryManager.Fire` | manager.go:72-122 | the entry's non-nil hub is used, else a fresh clone of the base hub; on it exactly the dispatched event is captured; a scope within 5 crumbs stays within 5 |
| `Manager.SentryManager.WithRequestContext` | manager.go:183-188 | a fresh clone bound to the request is stored under "sentry_hub" in the request's keys |
| `Manager.RequestHubIsUsed` | manager.go:78-80 | an entry whose context is those request keys uses that hub |
| `Manager.ParseErrorLevels` | manager.go:43-51 | success iff every name parses, giving the levels in config order; otherwise the error of the first bad name |
| `Manager.NewSentryManager` | manager.go:31-63 | any client error or bad level name gives an error and no manager; on success `Levels()` is the parsed list in order |
| `Loggers.LogEntry.WithField` | logger.go:72 | a fresh entry with one more field, the same sink and the same context |
| `Loggers.EnsuredContext` | logger.go:62-66 | a set context is kept; a nil one becomes Background |
| `Loggers.EnsuredContextIdempotent` | logger.go:62-66 | `ensureContext` is idempotent and keeps a context already set |
| `Loggers.IsBrokenPipe` | logger.go:89-96 | only a `*net.OpError` over a `*os.SyscallError` whose text is long enough to hold "broken pipe" is classified broken pipe |
| `Loggers.BrokenPipeIgnoresCase` | logger.go:90-95 | an OpError over a SyscallError whose message holds any spelling of "broken pipe" is classified broken pipe |
| `Loggers.ConnectionResetIgnoresCase` | logger.go:90-95 | any spelling of "connection reset by peer" in the system error's message is classified broken pipe too |
| `Loggers.OnlyOpErrorIsBrokenPipe` | logger.go:90 | a panic that is not itself a `*net.OpError` is never a broken pipe |
| `Loggers.Logger.Extend` | logger.go:46-60 | name path = parent path + [n] and zone = its dotted join; fresh entry with no context; parent level and the manager's hook iff non-nil; own level zero |
| `Loggers.Logger.EnsureContext` | logger.go:62-66 | a nil context becomes Background; a set context is kept |
| `Loggers.Logger.WithUser` | logger.go:68-76 | the receiver's context gains `user_id`; the result has it as a field and in its context, same name and manager |
| `Loggers.Logger.WithGin` | logger.go:78-82 | the receiver's context binds the request and the receiver itself is returned |
| `Loggers.Logger.Recovery` | logger.go:84-113 | no panic: only `Next`; broken pipe: error recorded and abort, nothing logged; other: one error entry with field `panic` (when the level lets errors through) and abort with 500 |
| `Loggers.NewPlainLogger` | logger.go:36-44 | name `[n]`, no manager, the given level in the field, a default logrus instance |
| `Loggers.NewLogger` | manager.go:191-199 | name `[n]`, zone n, the manager and its hook; `logLevel` is not used |
| `Loggers.ExtendTwice` | logger.go:46-60 | `Extend(a).Extend(b)` has path + [a, b], displayed as the parent's zone + ".a.b"; its logrus level is PanicLevel |
| `Loggers.RecoveryEntryGroupedByRoute` | logger.go:103-106 | the entry Recovery logs binds the request, so its event is grouped by route |
| `Loggers.LoggerContextHasNoHub` | manager.go:76-81 | an entry whose context is a Background-rooted chain without a "sentry_hub" binding finds no hub, so `Fire` uses a clone |
| `Loggers.WithGinKeepsLoggerChain` | logger.go:78-82 | binding the request with `WithGin` keeps a logger's context such a chain |
| `Loggers.WithUserIDIsRead` | logger.go:70 | a context bound by `WithUser` gives that id back to `UserID` |
| `Nop.NopLogger.constructor` | nop.go:19-25 | output discarded and exactly one field, `kind = "nop"` |
| `Nop.NopLogger.Extend` | nop.go:27-29 | returns the receiver |
| `Nop.NopLogger.WithUser` | nop.go:31-33 | returns the receiver |
| `Nop.NopLogger.WithGin` | nop.go:35-37 | returns the receiver |
| `Nop.NopLogger.NewLogger` | nop.go:54-56 | returns the receiver |
| `Nop.NopLogger.Recovery` | nop.go:39-43 | only `Next` is called; a panic passes through unrecovered |
| `Nop.NopLogger.RecoveryWith` | nop.go:45-52 | the calls are exactly `[Handler, Next]` with a handler and `[Next]` without one |

## Left out

- Concurrency. `Fire`'s goroutine runs to completion inside `Fire`. The race on the shared receiver in `Recovery` → `WithGin` is not modelled.
- The sentry transport. `sentry.NewClient` is the parameter `clientError`. The events of each hub are logged on that hub, not sent over the network.
- `CaptureEvent` applies only the scope's breadcrumbs to the event. Tags, request and user are not applied.
- A zero breadcrumb or event timestamp is stamped by sentry with the current time. This is not modelled.
- `Foreign.AddCrumbsKeepsMostRecent` and `Manager.ErrorTrail` are stated only for a scope within its capacity; above it, sentry's slicing drops the new crumb (`Foreign.AddCrumb`). Every scope in the package starts empty (`Manager.NewSentryManager`, then clones of that hub) and stays within 5 crumbs under `Fire` (`Manager.DispatchWithinLimit`). The base hub is changed only by an entry that binds it as its own request hub.
- Logrus output, formatting and level filtering of hooks: which entries reach `Fire` is not modelled. `Loggers.Logger.Recovery` reports the entry it logs.
- The leveled logging methods of `logrus.FieldLogger` are not modelled, on either logger type.
- `strings.ToLower` and `ParseLevel`'s case folding work on ASCII only.
- `%q` escaping of special characters is not modelled.
- User-defined `Error()`, `QueryBody()` and `QueryArgs()` are assumed to return normally. Nil-pointer dereferences are not modelled.
- The gin request is a record of method and route. A nil `*gin.Context` bound in a context is not modelled.
- gin's handler chain is a recorded list of calls.
- A nil field map reads as an empty one.
- The panic texts of failed type assertions follow Go's format, with approximate type names.
- Slice aliasing from `append(l.name, name)` is not modelled: paths are immutable sequences.
- manager.go:191-198 builds `&Logger{...}` of an interface type, and `LoggerMaker` declares `*Logger`. The model builds the `logger` record instead.
