/** `initialize_logging`: the process-wide threshold `g_logging_level`, the
    optional `PYV8_LOG` override, and the one text sink it registers, with
    its severity filter and its line formatter.

    Boost.Log's own machinery (sink frontends and their locking, the
    `std::clog` backend, auto-flush, common attributes, filter and formatter
    factories, timestamp rendering) is not modelled; a record's timestamp is
    already text here. */
module Logging {
  import opened Results
  import opened Severity

  /** Compiled-in value of `g_logging_level`. */
  const DefaultThreshold: Level := Error

  /** Name of the environment variable read by `getenv`. */
  const LogVariable: string := "PYV8_LOG"

  /** A registered sink. Its filter has no state of its own: it reads the
      global threshold on every record. Its formatter holds the outcome of
      `g_logging_level >= debug`, evaluated once when the formatter was built. */
  datatype Sink = Sink(identityGate: bool)

  /** The process-wide logging state: the threshold cell and the core's
      list of sinks (append-only). */
  datatype LogState = LogState(threshold: Level, sinks: seq<Sink>)

  /** State of the process before the module is loaded. */
  const InitialLogState: LogState := LogState(DefaultThreshold, [])

  /** One log record with its attributes. `isolate` and `context` are the
      rendered `Isolate` and `Context` attribute values, when attached. */
  datatype Record = Record(
    timestamp: string,
    severity: Level,
    message: string,
    isolate: Option<string>,
    context: Option<string>)

  /** `getenv`: the value of a variable, if set. */
  function GetEnv(env: map<string, string>, name: string): (r: Option<string>)
    ensures r.Some? <==> name in env
    ensures r.Some? ==> r.value == env[name]
  {
    if name in env then Some(env[name]) else None
  }

  /** The threshold after the `PYV8_LOG` step: unchanged when the variable is
      unset, the parsed level when it parses, and the parser's exception
      otherwise. */
  function ConfigureThreshold(current: Level, env: map<string, string>): (r: Result<Level, ParseError>)
    ensures LogVariable !in env ==> r == Success(current)
    ensures r.Failure? <==> LogVariable in env && FirstToken(env[LogVariable]).token !in Literals
    ensures r.Success? && LogVariable in env ==> Format(r.value) == FirstToken(env[LogVariable]).token
    ensures r.Failure? ==> r.error == InvalidArgument(FirstToken(env[LogVariable]).token)
  {
    match GetEnv(env, LogVariable)
    case None => Success(current)
    case Some(v) => Parse(v)
  }

  /** The formatter condition `g_logging_level >= debug`, as written. */
  predicate IdentityGate(threshold: Level) {
    AtLeast(threshold, Debug)
  }

  /** `initialize_logging`: set the threshold, then build and register one
      sink. An exception from the parser propagates before the sink is
      registered, so no state is produced. */
  function InitializeLogging(s: LogState, env: map<string, string>): (r: Result<LogState, ParseError>)
    ensures r.Failure? <==> LogVariable in env && Parse(env[LogVariable]).Failure?
    ensures r.Failure? ==> r.error == InvalidArgument(FirstToken(env[LogVariable]).token)
    ensures r.Success? ==> |r.value.sinks| == |s.sinks| + 1
    ensures r.Success? ==> r.value.sinks[..|s.sinks|] == s.sinks
    ensures r.Success? && LogVariable !in env ==> r.value.threshold == s.threshold
    ensures r.Success? && LogVariable in env ==> Format(r.value.threshold) == FirstToken(env[LogVariable]).token
    ensures r.Success? ==> (r.value.sinks[|s.sinks|].identityGate <==> r.value.threshold != Trace)
  {
    match ConfigureThreshold(s.threshold, env)
    case Failure(e) => Failure(e)
    case Success(level) =>
      Success(LogState(level, s.sinks + [Sink(IdentityGate(level))]))
  }

  /** The filter `severity >= boost::ref(g_logging_level)`. */
  predicate Passes(threshold: Level, severity: Level) {
    AtLeast(severity, threshold)
  }

  /** The optional ` [isolate:context]` segment. A missing `Context`
      attribute renders as nothing. */
  function IdentitySegment(sink: Sink, rec: Record): string {
    if sink.identityGate && rec.isolate.Some? then
      " [" + rec.isolate.value + ":" + (if rec.context.Some? then rec.context.value else "") + "]"
    else ""
  }

  /** The text that closes every line: ` <LEVEL> message`. */
  function Tail(rec: Record): string {
    " <" + Format(rec.severity) + "> " + rec.message
  }

  /** The formatter: timestamp, the identity segment when the gate captured
      at construction is open and the record carries an `Isolate`
      attribute, then the level and the message. */
  function FormatLine(sink: Sink, rec: Record): (line: string)
    ensures |rec.timestamp| <= |line| && line[..|rec.timestamp|] == rec.timestamp
    ensures |Tail(rec)| <= |line| && line[|line| - |Tail(rec)|..] == Tail(rec)
    ensures |line| > |rec.timestamp| + |Tail(rec)| <==> sink.identityGate && rec.isolate.Some?
  {
    var line := rec.timestamp + IdentitySegment(sink, rec) + Tail(rec);
    assert line[..|rec.timestamp|] == rec.timestamp;
    assert line[|line| - |Tail(rec)|..] == Tail(rec);
    line
  }

  /** Emitting a record: every sink whose filter accepts it writes one line.
      The filter compares against the threshold held in the state at the
      time of emission. */
  function Emit(s: LogState, rec: Record): (lines: seq<string>)
    ensures Passes(s.threshold, rec.severity) ==> |lines| == |s.sinks|
    ensures !Passes(s.threshold, rec.severity) ==> lines == []
    ensures forall i :: 0 <= i < |lines| ==> lines[i] == FormatLine(s.sinks[i], rec)
  {
    if Passes(s.threshold, rec.severity) then
      seq(|s.sinks|, i requires 0 <= i < |s.sinks| => FormatLine(s.sinks[i], rec))
    else []
  }

  // ---------------------------------------------------------------------
  // Properties
  // ---------------------------------------------------------------------

  /** Without `PYV8_LOG` the threshold stays `error` and exactly one sink is
      registered. */
  lemma DefaultConfiguration(env: map<string, string>)
    requires LogVariable !in env
    ensures InitializeLogging(InitialLogState, env) == Success(LogState(Error, [Sink(true)]))
  {
  }

  /** With `PYV8_LOG` holding a level name (surrounded by any whitespace and
      trailing words), the threshold becomes that level and one sink is
      registered. */
  lemma ConfiguredFromVariable(env: map<string, string>, lead: string, l: Level, rest: string)
    requires AllSpace(lead) && (rest == [] || IsSpace(rest[0]))
    requires LogVariable in env && env[LogVariable] == lead + Format(l) + rest
    ensures InitializeLogging(InitialLogState, env).Success?
    ensures InitializeLogging(InitialLogState, env).value.threshold == l
    ensures |InitializeLogging(InitialLogState, env).value.sinks| == 1
  {
    ParseFirstWordOnly(lead, l, rest);
  }

  /** An invalid `PYV8_LOG`, such as `VERBOSE` or `debug`, aborts
      configuration with the offending word. */
  lemma InvalidVariableRejected(env: map<string, string>)
    requires LogVariable in env && env[LogVariable] in {"VERBOSE", "debug", ""}
    ensures InitializeLogging(InitialLogState, env) == Failure(InvalidArgument(env[LogVariable]))
  {
    var v := env[LogVariable];
    if v == "" {
      ParseRejectsBlank(v);
    } else {
      ParseRejectsOtherWords("", v, "");
      assert "" + v + "" == v;
    }
  }

  /** The filter is inclusive at the threshold: a record is written exactly
      when its severity is at or above it. */
  lemma FilterInclusive(s: LogState, rec: Record)
    requires |s.sinks| == 1
    ensures |Emit(s, rec)| == 1 <==> Rank(rec.severity) >= Rank(s.threshold)
    ensures Emit(s, rec) == [] <==> Rank(rec.severity) < Rank(s.threshold)
  {
  }

  /** Threshold `warning` writes `warning` and `error` records and drops
      `info`. */
  lemma WarningBoundary(sinks: seq<Sink>, rec: Record)
    requires |sinks| == 1
    ensures rec.severity == Warning ==> |Emit(LogState(Warning, sinks), rec)| == 1
    ensures rec.severity == Error ==> |Emit(LogState(Warning, sinks), rec)| == 1
    ensures rec.severity == Info ==> Emit(LogState(Warning, sinks), rec) == []
  {
  }

  /** At the default threshold no record below `error` is ever written. */
  lemma DefaultDropsVerbose(sinks: seq<Sink>, rec: Record)
    requires rec.severity in {Trace, Debug, Info, Warning}
    ensures Emit(LogState(DefaultThreshold, sinks), rec) == []
  {
  }

  /** The filter reads the threshold when a record is emitted: writing a
      new level into the threshold cell after configuration changes which
      records pass, but the sinks (and so the formatter gate fixed at
      construction) stay as they were. */
  lemma ThresholdReadAtEmission(s: LogState, t: Level, rec: Record)
    requires |s.sinks| == 1
    ensures |Emit(s.(threshold := t), rec)| == 1 <==> AtLeast(rec.severity, t)
    ensures AtLeast(rec.severity, t) ==>
      Emit(s.(threshold := t), rec) == [FormatLine(s.sinks[0], rec)]
  {
  }

  /** As written, the formatter gate is open for every threshold except
      `trace`, the default `error` included: at the default threshold an
      `error` record carrying an `Isolate` attribute is written with the
      bracketed segment. */
  lemma IdentityShownAtDefault(env: map<string, string>, rec: Record)
    requires LogVariable !in env
    requires rec.isolate.Some? && Rank(rec.severity) >= Rank(Error)
    ensures var s := InitializeLogging(InitialLogState, env).value;
      |Emit(s, rec)| == 1 && |Emit(s, rec)[0]| > |rec.timestamp| + |Tail(rec)|
  {
  }

  /** At threshold `trace` the gate is closed: no line carries the
      bracketed segment, whatever attributes the record has. */
  lemma IdentityHiddenAtTrace(env: map<string, string>, rec: Record)
    requires LogVariable in env && env[LogVariable] == "TRACE"
    ensures InitializeLogging(InitialLogState, env).Success?
    ensures var s := InitializeLogging(InitialLogState, env).value;
      s.threshold == Trace && Emit(s, rec) == [rec.timestamp + Tail(rec)]
  {
    FormatThenParse(Trace);
  }
}
