/** RtLogger: a prefix-tagged logger whose six methods are gated by the
    configured level. The console and the backend are modelled as one
    appended trace of effects; the clock, `location` and the HTTP call are not. */
module RtLog {
  import opened Wrappers
  import opened JsValues
  import Lv = RtLogLevel

  /** The console method a line is written with. */
  datatype Channel = ConsoleWarn | ConsoleError | ConsoleInfo | ConsoleLog

  /** One observable effect of the logger: a console line (its timestamp is
      not modelled) or one call of the log service's `logToBackend`. */
  datatype Effect =
    | Console(channel: Channel, level: Lv.Level, message: string, meta: Value)
    | Backend(level: Lv.Level, message: string, activeRoute: string, meta: Value)

  /** The injected `RtLogConfig`. Its `logLevel` is `None` when it was left
      undefined, as in the bare `RtLogConfig` the module provides when the
      app does not call `forRoot`. */
  datatype LogConfig = LogConfig(logLevel: Option<Lv.Level>, logName: string)

  /** The six public logging methods. */
  datatype LogMethod = TraceMethod | DebugMethod | InfoMethod | WarnMethod | ErrorMethod | FatalMethod

  function MethodLevel(m: LogMethod): Lv.Level
  {
    match m
    case TraceMethod => Lv.Trace
    case DebugMethod => Lv.Debug
    case InfoMethod => Lv.Info
    case WarnMethod => Lv.Warn
    case ErrorMethod => Lv.Error
    case FatalMethod => Lv.Fatal
  }

  /** Only warn, error and fatal also post to the backend. */
  predicate ForwardsToBackend(m: LogMethod)
  {
    m.WarnMethod? || m.ErrorMethod? || m.FatalMethod?
  }

  /** The switch in `_logToConsole`: warn on `console.warn`, error and fatal
      on `console.error`, info on `console.info`, and every other level on
      `console.log`. */
  function ChannelFor(level: Lv.Level): (c: Channel)
    ensures c == ConsoleWarn <==> level == Lv.Warn
    ensures c == ConsoleError <==> level == Lv.Error || level == Lv.Fatal
    ensures c == ConsoleInfo <==> level == Lv.Info
    ensures c == ConsoleLog <==> level !in {Lv.Warn, Lv.Error, Lv.Fatal, Lv.Info}
  {
    match level
    case Warn => ConsoleWarn
    case Error => ConsoleError
    case Fatal => ConsoleError
    case Info => ConsoleInfo
    case _ => ConsoleLog
  }

  /** `_logToConsole`: one console line at `level`, on that level's channel,
      with the message and meta as given. */
  function LogToConsole(level: Lv.Level, message: string, meta: Value): (e: Effect)
    ensures e.Console? && e.channel == ChannelFor(level)
    ensures e.level == level && e.message == message && e.meta == meta
  {
    Console(ChannelFor(level), level, message, meta)
  }

  const NotConfiguredMessage: string := "RtLogConfig is not configured, skipping logging attempt."

  /** The level `_getLogLevel` returns (`None` for `undefined`): the
      config's own, which may be undefined, or, without a config, a level
      above that of every logging method, so that nothing gets through. */
  function EffectiveLevel(config: Option<LogConfig>): (l: Option<Lv.Level>)
    ensures config.Some? ==> l == config.value.logLevel
    ensures config.None? ==> l.Some? && forall m :: Lv.Value(MethodLevel(m)) < Lv.Value(l.value)
  {
    if config.Some? then config.value.logLevel else Some(Lv.None)
  }

  /** The console line `_getLogLevel` writes on its way when there is no config. */
  function ConfigDiagnostics(config: Option<LogConfig>): (r: seq<Effect>)
    ensures r != [] <==> config.None?
    ensures |r| <= 1
    ensures forall e | e in r :: e == Console(ConsoleLog, Lv.Debug, NotConfiguredMessage, Null)
  {
    if config.None? then [LogToConsole(Lv.Debug, NotConfiguredMessage, Null)] else []
  }

  /** The message posted to the backend: the prefix, a " - " separator and
      the message, so that both parts can be read back from it. */
  function DecorateLogMessage(prefix: string, message: string): (d: string)
    ensures |d| == |prefix| + 3 + |message|
    ensures d[..|prefix|] == prefix
    ensures d[|prefix|..|prefix| + 3] == " - "
    ensures d[|prefix| + 3..] == message
  {
    prefix + " - " + message
  }

  /** The gate: a call of `m` gets past the early return iff the effective
      level is not above the method's own level. An undefined level is above
      nothing (`undefined > n` is false), so it passes every gate. */
  predicate Passes(config: Option<LogConfig>, m: LogMethod)
    ensures config.None? ==> !Passes(config, m)
    ensures config.Some? && config.value.logLevel.Some? ==>
      (Passes(config, m) <==> Lv.Value(config.value.logLevel.value) <= Lv.Value(MethodLevel(m)))
    ensures config.Some? && config.value.logLevel.None? ==> Passes(config, m)
  {
    var level := EffectiveLevel(config);
    level.None? || Lv.Value(level.value) <= Lv.Value(MethodLevel(m))
  }

  /** Everything one call of `m` appends to the effect trace: the missing
      config line, if any, then, past the gate, one console line on the
      method's channel and, for warn, error and fatal, one backend post. */
  function CallEffects(prefix: string, config: Option<LogConfig>, m: LogMethod,
                       message: string, meta: Value, activeRoute: string): (r: seq<Effect>)
    ensures |r| == |ConfigDiagnostics(config)| + (if !Passes(config, m) then 0 else if ForwardsToBackend(m) then 2 else 1)
    ensures r[..|ConfigDiagnostics(config)|] == ConfigDiagnostics(config)
    ensures Passes(config, m) ==> r[|ConfigDiagnostics(config)|] == Console(ChannelFor(MethodLevel(m)), MethodLevel(m), message, meta)
    ensures forall e | e in r && e.Backend? ::
      ForwardsToBackend(m) && Passes(config, m)
      && e == Backend(MethodLevel(m), DecorateLogMessage(prefix, message), activeRoute, meta)
  {
    var level := MethodLevel(m);
    ConfigDiagnostics(config) +
    if !Passes(config, m) then []
    else [LogToConsole(level, message, meta)] +
         if ForwardsToBackend(m) then [Backend(level, DecorateLogMessage(prefix, message), activeRoute, meta)] else []
  }

  /** The configured levels at which each method logs, as the logger's test
      table lists them row by row. */
  function TestedLoggingLevels(m: LogMethod): set<Lv.Level>
  {
    match m
    case TraceMethod => {Lv.Trace, Lv.All}
    case DebugMethod => {Lv.Debug, Lv.Trace, Lv.All}
    case InfoMethod => {Lv.Info, Lv.Debug, Lv.Trace, Lv.All}
    case WarnMethod => {Lv.Warn, Lv.Info, Lv.Debug, Lv.Trace, Lv.All}
    case ErrorMethod => {Lv.Error, Lv.Warn, Lv.Info, Lv.Debug, Lv.Trace, Lv.All}
    case FatalMethod => {Lv.Fatal, Lv.Error, Lv.Warn, Lv.Info, Lv.Debug, Lv.Trace, Lv.All}
  }

  /** With a config, a call produces output iff the configured level is at or
      below the method's level, and this agrees with the whole 8 x 6 test table. */
  lemma GateIsThreshold(prefix: string, level: Lv.Level, logName: string, m: LogMethod,
                        message: string, meta: Value, activeRoute: string)
    ensures CallEffects(prefix, Some(LogConfig(Some(level), logName)), m, message, meta, activeRoute) != []
        <==> Lv.Value(level) <= Lv.Value(MethodLevel(m))
    ensures CallEffects(prefix, Some(LogConfig(Some(level), logName)), m, message, meta, activeRoute) != []
        <==> level in TestedLoggingLevels(m)
  {
  }

  /** A config whose level is undefined logs exactly as one set to All: every
      method writes its console line, and warn, error and fatal post to the
      backend. */
  lemma UndefinedLevelLogsLikeAll(prefix: string, logName: string, m: LogMethod,
                                  message: string, meta: Value, activeRoute: string)
    ensures CallEffects(prefix, Some(LogConfig(Option.None, logName)), m, message, meta, activeRoute)
         == CallEffects(prefix, Some(LogConfig(Some(Lv.All), logName)), m, message, meta, activeRoute)
    ensures CallEffects(prefix, Some(LogConfig(Option.None, logName)), m, message, meta, activeRoute)[0]
         == Console(ChannelFor(MethodLevel(m)), MethodLevel(m), message, meta)
  {
  }

  /** trace, debug and info never reach the backend, whatever the level. */
  lemma BelowWarnStaysOnConsole(prefix: string, config: Option<LogConfig>, m: LogMethod,
                                message: string, meta: Value, activeRoute: string)
    requires !ForwardsToBackend(m)
    ensures forall e | e in CallEffects(prefix, config, m, message, meta, activeRoute) :: e.Console?
  {
  }

  /** warn, error and fatal, when not filtered, write one console line on
      their own channel and make exactly one backend call carrying the
      method's level, the decorated message, the route and the meta. */
  lemma ForwardedCallsPostOnce(prefix: string, config: LogConfig, m: LogMethod,
                               message: string, meta: Value, activeRoute: string)
    requires ForwardsToBackend(m) && Passes(Some(config), m)
    ensures CallEffects(prefix, Some(config), m, message, meta, activeRoute)
         == [Console(ChannelFor(MethodLevel(m)), MethodLevel(m), message, meta),
             Backend(MethodLevel(m), DecorateLogMessage(prefix, message), activeRoute, meta)]
  {
  }

  /** Without a config every call is silenced, and the only output is the
      diagnostic debug line. */
  lemma MissingConfigSilences(prefix: string, m: LogMethod,
                              message: string, meta: Value, activeRoute: string)
    ensures CallEffects(prefix, Option.None, m, message, meta, activeRoute)
         == [Console(ConsoleLog, Lv.Debug, NotConfiguredMessage, Null)]
  {
  }

  class RtLogger {
    const prefixString: string
    const config: Option<LogConfig>
    /** What has been written to the console and posted to the backend so far. */
    var effects: seq<Effect>

    constructor(prefixString: string, config: Option<LogConfig>)
      ensures this.prefixString == prefixString && this.config == config
      ensures effects == []
    {
      this.prefixString := prefixString;
      this.config := config;
      effects := [];
    }

    method GetLogLevel() returns (level: Option<Lv.Level>)
      modifies this`effects
      ensures level == EffectiveLevel(config)
      ensures effects == old(effects) + ConfigDiagnostics(config)
    {
      if config.None? {
        effects := effects + [LogToConsole(Lv.Debug, NotConfiguredMessage, Null)];
      }
      level := EffectiveLevel(config);
    }

    method Trace(message: string, meta: Value)
      modifies this`effects
      ensures effects == old(effects) + CallEffects(prefixString, config, TraceMethod, message, meta, "")
    {
      var level := GetLogLevel();
      if level.Some? && Lv.Value(level.value) > Lv.Value(Lv.Trace) {
        return;
      }
      effects := effects + [LogToConsole(Lv.Trace, message, meta)];
    }

    method Debug(message: string, meta: Value)
      modifies this`effects
      ensures effects == old(effects) + CallEffects(prefixString, config, DebugMethod, message, meta, "")
    {
      var level := GetLogLevel();
      if level.Some? && Lv.Value(level.value) > Lv.Value(Lv.Debug) {
        return;
      }
      effects := effects + [LogToConsole(Lv.Debug, message, meta)];
    }

    method Info(message: string, meta: Value)
      modifies this`effects
      ensures effects == old(effects) + CallEffects(prefixString, config, InfoMethod, message, meta, "")
    {
      var level := GetLogLevel();
      if level.Some? && Lv.Value(level.value) > Lv.Value(Lv.Info) {
        return;
      }
      effects := effects + [LogToConsole(Lv.Info, message, meta)];
    }

    /** `activeRoute` stands for `location.pathname + location.search`. */
    method Warn(message: string, meta: Value, activeRoute: string)
      modifies this`effects
      ensures effects == old(effects) + CallEffects(prefixString, config, WarnMethod, message, meta, activeRoute)
    {
      var level := GetLogLevel();
      if level.Some? && Lv.Value(level.value) > Lv.Value(Lv.Warn) {
        return;
      }
      effects := effects + [LogToConsole(Lv.Warn, message, meta)];
      effects := effects + [Backend(Lv.Warn, DecorateLogMessage(prefixString, message), activeRoute, meta)];
    }

    method Error(message: string, meta: Value, activeRoute: string)
      modifies this`effects
      ensures effects == old(effects) + CallEffects(prefixString, config, ErrorMethod, message, meta, activeRoute)
    {
      var level := GetLogLevel();
      if level.Some? && Lv.Value(level.value) > Lv.Value(Lv.Error) {
        return;
      }
      effects := effects + [LogToConsole(Lv.Error, message, meta)];
      effects := effects + [Backend(Lv.Error, DecorateLogMessage(prefixString, message), activeRoute, meta)];
    }

    method Fatal(message: string, meta: Value, activeRoute: string)
      modifies this`effects
      ensures effects == old(effects) + CallEffects(prefixString, config, FatalMethod, message, meta, activeRoute)
    {
      var level := GetLogLevel();
      if level.Some? && Lv.Value(level.value) > Lv.Value(Lv.Fatal) {
        return;
      }
      effects := effects + [LogToConsole(Lv.Fatal, message, meta)];
      effects := effects + [Backend(Lv.Fatal, DecorateLogMessage(prefixString, message), activeRoute, meta)];
    }
  }
}
