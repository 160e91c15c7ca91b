/** The logger that does nothing: every derivation returns the logger itself and its
    handlers only pass the request on. */
module Nop {
  import opened Wrappers
  import opened Logrus
  import opened Foreign
  import opened Loggers

  /** Counts the `Next` calls in a list of handler calls. */
  function NextCount(calls: seq<GinCall>): nat {
    if calls == [] then 0 else (if calls[0] == Next then 1 else 0) + NextCount(calls[1..])
  }

  /** `NopLogger`. */
  class NopLogger {
    const entry: LogEntry

    /** `NewNopLogger()`: output discarded, one field `kind = "nop"`. */
    constructor ()
      ensures fresh(entry)
      ensures entry.sink == Sink(DefaultLevel, [], true)
      ensures entry.data == map["kind" := VString("nop")] && entry.context == None
    {
      entry := new LogEntry(NewSink.(discard := true), map["kind" := VString("nop")], None);
    }

    method Extend(name: string) returns (r: NopLogger)
      ensures r == this
    {
      r := this;
    }

    method WithUser(userID: string) returns (r: NopLogger)
      ensures r == this
    {
      r := this;
    }

    method WithGin(c: GinRequest) returns (r: NopLogger)
      ensures r == this
    {
      r := this;
    }

    method NewLogger(name: string) returns (r: NopLogger)
      ensures r == this
    {
      r := this;
    }

    /** The handler `Recovery()` returns: it calls `Next` and lets a panic `raised` by the
        downstream handlers pass through unrecovered. */
    method Recovery(c: GinRequest, raised: Value) returns (calls: seq<GinCall>, propagated: Value)
      ensures calls == [Next] && propagated == raised
    {
      calls := [Next];
      propagated := raised;
    }

    /** The handler `RecoveryWith(handler)` returns: the handler first, only when it is
        non-nil, then exactly one `Next`. */
    method RecoveryWith(c: GinRequest, hasHandler: bool) returns (calls: seq<GinCall>)
      ensures NextCount(calls) == 1 && calls[|calls| - 1] == Next
      ensures Handler in calls <==> hasHandler
      ensures hasHandler ==> calls[0] == Handler
      ensures |calls| == if hasHandler then 2 else 1
    {
      calls := [];
      if hasHandler {
        calls := calls + [Handler];
      }
      calls := calls + [Next];
      assert [Next][1..] == [];
      if hasHandler {
        assert calls[1..] == [Next];
      }
    }
  }
}
