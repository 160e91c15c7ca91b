/** The logrus severity levels, their names and `logrus.ParseLevel`. */
module Logrus {
  import opened Wrappers
  import Strings

  /** `logrus.Level`, a uint32 from PanicLevel (0) to TraceLevel (6). */
  datatype Level =
    | PanicLevel | FatalLevel | ErrorLevel | WarnLevel | InfoLevel | DebugLevel | TraceLevel

  /** The zero value of `logrus.Level`: a struct field never assigned holds it. */
  const ZeroLevel := PanicLevel

  /** The level `logrus.New()` starts with. */
  const DefaultLevel := InfoLevel

  /** Field key under which logrus stores an attached error (`logrus.ErrorKey`). */
  const ErrorKey := "error"

  /** The numeric value of a level; a smaller number is more severe. */
  function Ordinal(l: Level): nat {
    match l
    case PanicLevel => 0
    case FatalLevel => 1
    case ErrorLevel => 2
    case WarnLevel => 3
    case InfoLevel => 4
    case DebugLevel => 5
    case TraceLevel => 6
  }

  /** `Level.String()`; note that WarnLevel prints as "warning". */
  function LevelString(l: Level): string {
    match l
    case PanicLevel => "panic"
    case FatalLevel => "fatal"
    case ErrorLevel => "error"
    case WarnLevel => "warning"
    case InfoLevel => "info"
    case DebugLevel => "debug"
    case TraceLevel => "trace"
  }

  /** `logrus.ParseLevel`: a case-insensitive level name, "warn" and "warning" both naming WarnLevel. */
  function ParseLevel(name: string): (r: Result<Level>)
    ensures r.Err? ==> r.error == "not a valid logrus Level: " + Strings.Quote(name)
  {
    var low := Strings.ToLower(name);
    if low == "panic" then Ok(PanicLevel)
    else if low == "fatal" then Ok(FatalLevel)
    else if low == "error" then Ok(ErrorLevel)
    else if low == "warn" || low == "warning" then Ok(WarnLevel)
    else if low == "info" then Ok(InfoLevel)
    else if low == "debug" then Ok(DebugLevel)
    else if low == "trace" then Ok(TraceLevel)
    else Err("not a valid logrus Level: " + Strings.Quote(name))
  }

  /** `Logger.IsLevelEnabled`: a logger at `threshold` emits entries at `l` and more severe. */
  predicate Enabled(threshold: Level, l: Level) {
    Ordinal(l) <= Ordinal(threshold)
  }

  /** Every level's printed name parses back to that level. */
  lemma ParseLevelString(l: Level)
    ensures ParseLevel(LevelString(l)) == Ok(l)
  {
    var s := LevelString(l);
    assert Strings.ToLower(s) == s;
  }
}
