/** The module initialiser `BOOST_PYTHON_MODULE(_PyV8)` and its helper
    `load_external_data`, as a state machine that records the calls it makes
    as an ordered trace of events.

    Every V8 call and every `Expose()` is an opaque event; which of them
    throw is a parameter of the host (`Host.faulty`). The caller's script
    file name (found in C++ through the current Python frame) and the
    result of `fs::canonical` are inputs too. */
module Bootstrap {
  import opened Results
  import opened Severity
  import opened Logging

  // ---------------------------------------------------------------------
  // Inputs and events
  // ---------------------------------------------------------------------

  /** The classes whose static `Expose()` publishes part of the module. */
  datatype Capability =
    | CJavascriptException
    | CWrapper
    | CContext
    | CAstNode
    | CEngine
    | CDebug
    | CLocker

  /** The order in which capabilities are exposed; `CAstNode` is compiled in
      only when the build defines `SUPPORT_AST`. */
  function Capabilities(supportAst: bool): (caps: seq<Capability>)
    ensures CAstNode in caps <==> supportAst
    ensures |caps| == if supportAst then 7 else 6
    ensures caps[0] == CJavascriptException && caps[|caps| - 1] == CLocker
    ensures forall i, j :: 0 <= i < j < |caps| ==> caps[i] != caps[j]
  {
    [CJavascriptException, CWrapper, CContext]
      + (if supportAst then [CAstNode] else [])
      + [CEngine, CDebug, CLocker]
  }

  /** A canonical absolute file path: its directory components and its
      file name. */
  datatype FilePath = FilePath(dir: seq<string>, name: string)

  /** Directory components rendered as `/a/b`. */
  function Rooted(parts: seq<string>): string {
    if parts == [] then "" else "/" + parts[0] + Rooted(parts[1..])
  }

  /** The path as text (`load_path.c_str()`). */
  function PathText(p: FilePath): string {
    Rooted(p.dir) + "/" + p.name
  }

  /** A directory as text; the root is `/`. */
  function DirText(dir: seq<string>): string {
    if dir == [] then "/" else Rooted(dir)
  }

  /** The parent directory as text (`load_path.parent_path().c_str()`). */
  function ParentText(p: FilePath): string {
    DirText(p.dir)
  }

  /** One observable step of module initialisation, in the order it
      happens. `Log` is a record handed to the logger; the others are calls
      into V8 or into a capability. */
  datatype Event =
    | LoggingConfigured
    | Log(level: Level, message: Progress)
    | InitializeIcu(file: FilePath)
    | InitializeSnapshot(file: FilePath)
    | InitializePlatform
    | InitializeV8
    | CreateIsolate
    | EnterIsolate
    | Expose(capability: Capability)

  /** Calls into foreign code, the ones that can throw. */
  predicate IsNative(e: Event) {
    !e.LoggingConfigured? && !e.Log?
  }

  /** Everything module initialisation depends on but does not compute. */
  datatype Host = Host(
    environment: map<string, string>,
    callerFile: Option<string>,   // `co_filename` of the importing frame, if any
    canonical: map<string, FilePath>,   // what `fs::canonical` resolves; absent = throws
    supportAst: bool,
    faulty: set<Event>)   // native calls that throw

  predicate Fails(host: Host, e: Event) {
    IsNative(e) && e in host.faulty
  }

  predicate NoneFail(host: Host, trace: seq<Event>) {
    forall i :: 0 <= i < |trace| ==> !Fails(host, trace[i])
  }

  /** Why module initialisation stopped. */
  datatype BootError =
    | ConfigurationError(cause: ParseError)
    | NoCallerFile
    | PathNotFound(filename: string)
    | NativeFailure(call: Event)

  // ---------------------------------------------------------------------
  // The calls of each stage
  // ---------------------------------------------------------------------

  /** The progress records the initialiser logs, all at `debug`. */
  datatype Progress =
    | LoadingIcu(dir: seq<string>)
    | LoadingSnapshot(dir: seq<string>)
    | InitializingPlatform
    | InitializingV8
    | ExposingModules

  /** The message text of a progress record. */
  function MessageText(m: Progress): string {
    match m
    case LoadingIcu(dir) => "load ICU data from " + DirText(dir) + " ..."
    case LoadingSnapshot(dir) => "load external snapshot from " + DirText(dir) + " ..."
    case InitializingPlatform => "initializing platform ..."
    case InitializingV8 => "initializing V8 ..."
    case ExposingModules => "exposing modules ..."
  }

  /** `load_external_data` once the path is known: both V8 calls receive
      the file's own path; only the log messages name its parent. */
  function DataCalls(p: FilePath): seq<Event> {
    [Log(Debug, LoadingIcu(p.dir)), InitializeIcu(p),
     Log(Debug, LoadingSnapshot(p.dir)), InitializeSnapshot(p)]
  }

  const PlatformCalls: seq<Event> := [Log(Debug, InitializingPlatform), InitializePlatform]
  const EngineCalls: seq<Event> := [Log(Debug, InitializingV8), InitializeV8]
  const IsolateCalls: seq<Event> := [CreateIsolate, EnterIsolate]

  function ExposeEvents(caps: seq<Capability>): (r: seq<Event>)
    ensures |r| == |caps|
    ensures forall i :: 0 <= i < |r| ==> r[i] == Expose(caps[i])
  {
    seq(|caps|, i requires 0 <= i < |caps| => Expose(caps[i]))
  }

  function ExposeCalls(supportAst: bool): seq<Event> {
    [Log(Debug, ExposingModules)] + ExposeEvents(Capabilities(supportAst))
  }

  /** Where `load_external_data` finds the data: the canonical form of the
      importing script's file name. */
  function LocateData(host: Host): (r: Result<FilePath, BootError>)
    ensures r.Success? <==> host.callerFile.Some? && host.callerFile.value in host.canonical
    ensures r.Success? ==> r.value == host.canonical[host.callerFile.value]
    ensures r.Failure? && host.callerFile.None? ==> r.error == NoCallerFile
    ensures r.Failure? && host.callerFile.Some? ==> r.error == PathNotFound(host.callerFile.value)
  {
    match host.callerFile
    case None => Failure(NoCallerFile)
    case Some(f) => if f in host.canonical then Success(host.canonical[f]) else Failure(PathNotFound(f))
  }

  // ---------------------------------------------------------------------
  // Reference: the whole trace when nothing throws
  // ---------------------------------------------------------------------

  /** The calls made up to and including stage `k` (1 = logging configured,
      ..., 6 = modules exposed). */
  function PlanUpTo(p: FilePath, supportAst: bool, k: nat): seq<Event>
    requires 1 <= k <= 6
  {
    if k == 1 then [LoggingConfigured]
    else PlanUpTo(p, supportAst, k - 1) + Chunk(p, supportAst, k)
  }

  function Chunk(p: FilePath, supportAst: bool, k: nat): seq<Event>
    requires 2 <= k <= 6
  {
    if k == 2 then DataCalls(p)
    else if k == 3 then PlatformCalls
    else if k == 4 then EngineCalls
    else if k == 5 then IsolateCalls
    else ExposeCalls(supportAst)
  }

  /** The trace of a run in which no native call throws: empty when the
      log level does not parse, only the logging step when the script path
      does not resolve, every stage otherwise. */
  function Plan(host: Host): seq<Event> {
    if InitializeLogging(InitialLogState, host.environment).Failure? then []
    else match LocateData(host)
      case Failure(_) => [LoggingConfigured]
      case Success(p) => PlanUpTo(p, host.supportAst, 6)
  }

  /** A run that reaches the end: the level parses, the path resolves and
      no call of the plan throws. */
  predicate Completes(host: Host) {
    && InitializeLogging(InitialLogState, host.environment).Success?
    && LocateData(host).Success?
    && NoneFail(host, Plan(host))
  }

  predicate IsPrefix(a: seq<Event>, b: seq<Event>) {
    |a| <= |b| && b[..|a|] == a
  }

  // ---------------------------------------------------------------------
  // The state machine
  // ---------------------------------------------------------------------

  datatype Stage =
    | Uninitialized
    | DiagnosticsReady
    | DataLocated
    | PlatformReady
    | EngineReady
    | RootContextEntered
    | ModulesExposed

  function StageIndex(s: Stage): nat {
    match s
    case Uninitialized => 0
    case DiagnosticsReady => 1
    case DataLocated => 2
    case PlatformReady => 3
    case EngineReady => 4
    case RootContextEntered => 5
    case ModulesExposed => 6
  }

  datatype Machine = Machine(stage: Stage, log: LogState, data: Option<FilePath>, trace: seq<Event>)

  const Start: Machine := Machine(Uninitialized, InitialLogState, None, [])

  /** Either the next stage was reached, or a step threw; the machine then
      holds what had happened before the throw. */
  datatype Outcome = Ready(machine: Machine) | Aborted(error: BootError, machine: Machine)

  datatype Calls = Calls(done: seq<Event>, failed: Option<Event>)

  /** Makes `calls` one after another; the first one that throws stops the
      rest. */
  function Perform(host: Host, calls: seq<Event>): (r: Calls)
    ensures IsPrefix(r.done, calls)
    ensures NoneFail(host, r.done)
    ensures r.failed.None? ==> r.done == calls
    ensures r.failed.Some? ==> |r.done| < |calls| && calls[|r.done|] == r.failed.value
    ensures r.failed.Some? ==> Fails(host, r.failed.value)
  {
    if calls == [] then Calls([], None)
    else if Fails(host, calls[0]) then Calls([], Some(calls[0]))
    else
      var rest := Perform(host, calls[1..]);
      Calls([calls[0]] + rest.done, rest.failed)
  }

  /** Runs the calls of one stage and moves to `next` if none throws. */
  function Advance(host: Host, m: Machine, next: Stage, calls: seq<Event>): (o: Outcome)
    ensures IsPrefix(m.trace, o.machine.trace)
    ensures o.Ready? <==> NoneFail(host, calls)
    ensures o.Ready? ==> o.machine == m.(stage := next, trace := m.trace + calls)
    ensures o.Aborted? ==> o.error.NativeFailure?
    ensures o.Aborted? ==> o.machine == m.(trace := m.trace + Perform(host, calls).done)
  {
    var r := Perform(host, calls);
    match r.failed
    case None =>
      assert (m.trace + calls)[..|m.trace|] == m.trace;
      Ready(m.(stage := next, trace := m.trace + calls))
    case Some(e) =>
      assert (m.trace + r.done)[..|m.trace|] == m.trace;
      Aborted(NativeFailure(e), m.(trace := m.trace + r.done))
  }

  /** The first stage: `initialize_logging`. An exception from the parser
      leaves the machine as it was. */
  function Configure(host: Host, m: Machine): (o: Outcome)
    ensures IsPrefix(m.trace, o.machine.trace)
    ensures o.Ready? <==> InitializeLogging(m.log, host.environment).Success?
    ensures o.Ready? ==> o.machine == m.(stage := DiagnosticsReady,
      log := InitializeLogging(m.log, host.environment).value, trace := m.trace + [LoggingConfigured])
    ensures o.Aborted? ==> o.machine == m
    ensures o.Aborted? ==> o.error == ConfigurationError(InitializeLogging(m.log, host.environment).error)
  {
    match InitializeLogging(m.log, host.environment)
    case Failure(e) => Aborted(ConfigurationError(e), m)
    case Success(log) =>
      assert (m.trace + [LoggingConfigured])[..|m.trace|] == m.trace;
      Ready(m.(stage := DiagnosticsReady, log := log, trace := m.trace + [LoggingConfigured]))
  }

  /** The second stage: find the script's file and run `load_external_data`
      on it. */
  function Locate(host: Host, m: Machine): (o: Outcome)
    ensures IsPrefix(m.trace, o.machine.trace)
    ensures o.Ready? ==> o.machine.stage == DataLocated
    ensures LocateData(host).Failure? ==> o == Aborted(LocateData(host).error, m)
  {
    match LocateData(host)
    case Failure(e) => Aborted(e, m)
    case Success(p) => Advance(host, m.(data := Some(p)), DataLocated, DataCalls(p))
  }

  /** One transition of the bootstrap sequence. */
  function Step(host: Host, m: Machine): (o: Outcome)
    requires m.stage != ModulesExposed
    ensures o.Ready? ==> StageIndex(o.machine.stage) == StageIndex(m.stage) + 1
  {
    match m.stage
    case Uninitialized => Configure(host, m)
    case DiagnosticsReady => Locate(host, m)
    case DataLocated => Advance(host, m, PlatformReady, PlatformCalls)
    case PlatformReady => Advance(host, m, EngineReady, EngineCalls)
    case EngineReady => Advance(host, m, RootContextEntered, IsolateCalls)
    case RootContextEntered => Advance(host, m, ModulesExposed, ExposeCalls(host.supportAst))
  }

  /** What holds of a machine that reached its stage from `Start`. */
  predicate Reached(host: Host, m: Machine) {
    && NoneFail(host, m.trace)
    && (m.stage == Uninitialized ==> m.log == InitialLogState && m.trace == [])
    && (m.stage != Uninitialized ==> InitializeLogging(InitialLogState, host.environment) == Success(m.log))
    && (m.stage == DiagnosticsReady ==> m.trace == [LoggingConfigured])
    && (StageIndex(m.stage) >= 2 ==>
          && LocateData(host).Success?
          && m.data == Some(LocateData(host).value)
          && m.trace == PlanUpTo(LocateData(host).value, host.supportAst, StageIndex(m.stage)))
  }

  /** What holds of a run that stopped with `error`. */
  predicate AbortedWell(host: Host, error: BootError, m: Machine) {
    && IsPrefix(m.trace, Plan(host))
    && NoneFail(host, m.trace)
    && (error.ConfigurationError? ==>
          && InitializeLogging(InitialLogState, host.environment) == Failure(error.cause)
          && m.trace == [] && m.log == InitialLogState)
    && (error.NoCallerFile? || error.PathNotFound? ==>
          && InitializeLogging(InitialLogState, host.environment).Success?
          && LocateData(host) == Failure(error)
          && m.trace == [LoggingConfigured]
          && InitializeLogging(InitialLogState, host.environment) == Success(m.log))
    && (error.NativeFailure? ==>
          && InitializeLogging(InitialLogState, host.environment) == Success(m.log)
          && |m.trace| < |Plan(host)| && Plan(host)[|m.trace|] == error.call
          && Fails(host, error.call))
  }

  lemma {:induction false} PlanUpToPrefix(p: FilePath, supportAst: bool, k: nat, n: nat)
    requires 1 <= k <= n <= 6
    ensures IsPrefix(PlanUpTo(p, supportAst, k), PlanUpTo(p, supportAst, n))
  {
    if k < n {
      PlanUpToPrefix(p, supportAst, k, n - 1);
      var a := PlanUpTo(p, supportAst, k);
      var b := PlanUpTo(p, supportAst, n - 1);
      assert (b + Chunk(p, supportAst, n))[..|a|] == b[..|a|];
    }
  }

  /** The plan stage by stage. */
  lemma Layers(p: FilePath, supportAst: bool)
    ensures PlanUpTo(p, supportAst, 1) == [LoggingConfigured]
    ensures PlanUpTo(p, supportAst, 2) == PlanUpTo(p, supportAst, 1) + DataCalls(p)
    ensures PlanUpTo(p, supportAst, 3) == PlanUpTo(p, supportAst, 2) + PlatformCalls
    ensures PlanUpTo(p, supportAst, 4) == PlanUpTo(p, supportAst, 3) + EngineCalls
    ensures PlanUpTo(p, supportAst, 5) == PlanUpTo(p, supportAst, 4) + IsolateCalls
    ensures PlanUpTo(p, supportAst, 6) == PlanUpTo(p, supportAst, 5) + ExposeCalls(supportAst)
    ensures |PlanUpTo(p, supportAst, 2)| == 5 && |PlanUpTo(p, supportAst, 3)| == 7
    ensures |PlanUpTo(p, supportAst, 4)| == 9 && |PlanUpTo(p, supportAst, 5)| == 11
    ensures |PlanUpTo(p, supportAst, 6)| == 12 + |Capabilities(supportAst)|
  {
  }

  /** A stage that throws in the middle of its calls leaves a trace that is
      a prefix of the full plan, and the call that threw is the plan's next
      one. */
  lemma ChunkAborted(p: FilePath, supportAst: bool, k: nat, done: seq<Event>)
    requires 2 <= k <= 6
    requires IsPrefix(done, Chunk(p, supportAst, k)) && |done| < |Chunk(p, supportAst, k)|
    ensures var t := PlanUpTo(p, supportAst, k - 1) + done;
      && IsPrefix(t, PlanUpTo(p, supportAst, 6))
      && |t| < |PlanUpTo(p, supportAst, 6)|
      && PlanUpTo(p, supportAst, 6)[|t|] == Chunk(p, supportAst, k)[|done|]
  {
    var c := Chunk(p, supportAst, k);
    var before := PlanUpTo(p, supportAst, k - 1);
    var t := before + done;
    assert PlanUpTo(p, supportAst, k) == before + c;
    assert (before + c)[..|t|] == t;
    PlanUpToPrefix(p, supportAst, k, 6);
    PrefixStep(t, before + c, PlanUpTo(p, supportAst, 6));
  }

  /** A proper prefix of a prefix is a prefix, followed by the same
      element. */
  lemma PrefixStep(t: seq<Event>, whole: seq<Event>, plan: seq<Event>)
    requires IsPrefix(t, whole) && |t| < |whole| && IsPrefix(whole, plan)
    ensures IsPrefix(t, plan) && |t| < |plan| && plan[|t|] == whole[|t|]
  {
    assert plan[..|t|] == plan[..|whole|][..|t|];
    assert plan[|t|] == plan[..|whole|][|t|];
  }

  /** Running the calls of stage `k` from the trace of stage `k - 1`,
      when none of them throws. */
  lemma AdvanceReady(host: Host, m: Machine, p: FilePath, k: nat, next: Stage)
    requires 2 <= k <= 6 && StageIndex(next) == k
    requires InitializeLogging(InitialLogState, host.environment) == Success(m.log)
    requires LocateData(host) == Success(p) && m.data == Some(p)
    requires NoneFail(host, m.trace)
    requires m.trace == PlanUpTo(p, host.supportAst, k - 1)
    ensures var o := Advance(host, m, next, Chunk(p, host.supportAst, k));
      o.Ready? ==> Reached(host, o.machine)
  {
    var c := Chunk(p, host.supportAst, k);
    if NoneFail(host, c) {
      assert NoneFail(host, m.trace + c);
    }
  }

  /** Running the calls of stage `k` from the trace of stage `k - 1`,
      when one of them throws. */
  lemma AdvanceAborted(host: Host, m: Machine, p: FilePath, k: nat, next: Stage)
    requires 2 <= k <= 6 && StageIndex(next) == k
    requires InitializeLogging(InitialLogState, host.environment) == Success(m.log)
    requires LocateData(host) == Success(p) && m.data == Some(p)
    requires NoneFail(host, m.trace)
    requires m.trace == PlanUpTo(p, host.supportAst, k - 1)
    ensures var o := Advance(host, m, next, Chunk(p, host.supportAst, k));
      o.Aborted? ==> AbortedWell(host, o.error, o.machine)
  {
    var c := Chunk(p, host.supportAst, k);
    assert Plan(host) == PlanUpTo(p, host.supportAst, 6);
    if !NoneFail(host, c) {
      var done := Perform(host, c).done;
      ChunkAborted(p, host.supportAst, k, done);
      assert NoneFail(host, m.trace + done);
    }
  }

  lemma AdvancePreserves(host: Host, m: Machine, p: FilePath, k: nat, next: Stage)
    requires 2 <= k <= 6 && StageIndex(next) == k
    requires InitializeLogging(InitialLogState, host.environment) == Success(m.log)
    requires LocateData(host) == Success(p) && m.data == Some(p)
    requires NoneFail(host, m.trace)
    requires m.trace == PlanUpTo(p, host.supportAst, k - 1)
    ensures var o := Advance(host, m, next, Chunk(p, host.supportAst, k));
      && (o.Ready? ==> Reached(host, o.machine))
      && (o.Aborted? ==> AbortedWell(host, o.error, o.machine))
  {
    AdvanceReady(host, m, p, k, next);
    AdvanceAborted(host, m, p, k, next);
  }

  /** Configuring logging: either the level does not parse and nothing
      happened, or one sink is registered. */
  lemma ConfigurePreserves(host: Host, m: Machine)
    requires m.stage == Uninitialized && Reached(host, m)
    ensures var o := Step(host, m);
      && (o.Ready? ==> Reached(host, o.machine))
      && (o.Aborted? ==> AbortedWell(host, o.error, o.machine))
  {
    var o := Step(host, m);
    if o.Ready? {
      assert o.machine.trace == [LoggingConfigured];
    } else {
      assert o.machine == m;
      assert Plan(host) == [];
    }
  }

  /** Locating the external data: a missing frame or an unresolvable path
      stops the run right after logging was configured. */
  lemma LocatePreserves(host: Host, m: Machine)
    requires m.stage == DiagnosticsReady && Reached(host, m)
    ensures var o := Step(host, m);
      && (o.Ready? ==> Reached(host, o.machine))
      && (o.Aborted? ==> AbortedWell(host, o.error, o.machine))
  {
    var ast := host.supportAst;
    match LocateData(host)
    case Failure(e) =>
      assert Step(host, m) == Aborted(e, m);
      assert Plan(host) == [LoggingConfigured];
    case Success(p) =>
      assert Step(host, m) == Advance(host, m.(data := Some(p)), DataLocated, DataCalls(p));
      assert Chunk(p, ast, 2) == DataCalls(p);
      assert PlanUpTo(p, ast, 1) == [LoggingConfigured];
      AdvancePreserves(host, m.(data := Some(p)), p, 2, DataLocated);
  }

  // The later stages, each a fixed list of calls.

  lemma PlatformStagePreserves(host: Host, m: Machine)
    requires m.stage == DataLocated && Reached(host, m)
    ensures var o := Step(host, m);
      && (o.Ready? ==> Reached(host, o.machine))
      && (o.Aborted? ==> AbortedWell(host, o.error, o.machine))
  {
    var p := LocateData(host).value;
    assert Step(host, m) == Advance(host, m, PlatformReady, PlatformCalls);
    assert Chunk(p, host.supportAst, 3) == PlatformCalls;
    AdvancePreserves(host, m, p, 3, PlatformReady);
  }

  lemma EngineStagePreserves(host: Host, m: Machine)
    requires m.stage == PlatformReady && Reached(host, m)
    ensures var o := Step(host, m);
      && (o.Ready? ==> Reached(host, o.machine))
      && (o.Aborted? ==> AbortedWell(host, o.error, o.machine))
  {
    var p := LocateData(host).value;
    assert Step(host, m) == Advance(host, m, EngineReady, EngineCalls);
    assert Chunk(p, host.supportAst, 4) == EngineCalls;
    AdvancePreserves(host, m, p, 4, EngineReady);
  }

  lemma IsolateStagePreserves(host: Host, m: Machine)
    requires m.stage == EngineReady && Reached(host, m)
    ensures var o := Step(host, m);
      && (o.Ready? ==> Reached(host, o.machine))
      && (o.Aborted? ==> AbortedWell(host, o.error, o.machine))
  {
    var p := LocateData(host).value;
    assert Step(host, m) == Advance(host, m, RootContextEntered, IsolateCalls);
    assert Chunk(p, host.supportAst, 5) == IsolateCalls;
    AdvancePreserves(host, m, p, 5, RootContextEntered);
  }

  // The last stage is proved in two halves, one per outcome.

  lemma ExposeStageReady(host: Host, m: Machine)
    requires m.stage == RootContextEntered && Reached(host, m)
    ensures var o := Step(host, m); o.Ready? ==> Reached(host, o.machine)
  {
    var p := LocateData(host).value;
    assert m.trace == PlanUpTo(p, host.supportAst, 5);
    AdvanceReady(host, m, p, 6, ModulesExposed);
  }

  lemma ExposeStageAborted(host: Host, m: Machine)
    requires m.stage == RootContextEntered && Reached(host, m)
    ensures var o := Step(host, m); o.Aborted? ==> AbortedWell(host, o.error, o.machine)
  {
    var p := LocateData(host).value;
    assert m.trace == PlanUpTo(p, host.supportAst, 5);
    AdvanceAborted(host, m, p, 6, ModulesExposed);
  }

  lemma StepPreserves(host: Host, m: Machine)
    requires m.stage != ModulesExposed
    requires Reached(host, m)
    ensures var o := Step(host, m);
      && (o.Ready? ==> Reached(host, o.machine))
      && (o.Aborted? ==> AbortedWell(host, o.error, o.machine))
  {
    if m.stage == Uninitialized {
      ConfigurePreserves(host, m);
    } else if m.stage == DiagnosticsReady {
      LocatePreserves(host, m);
    } else if m.stage == DataLocated {
      PlatformStagePreserves(host, m);
    } else if m.stage == PlatformReady {
      EngineStagePreserves(host, m);
    } else if m.stage == EngineReady {
      IsolateStagePreserves(host, m);
    } else {
      ExposeStageReady(host, m);
      ExposeStageAborted(host, m);
    }
  }

  /** `BOOST_PYTHON_MODULE(_PyV8)`: runs the stages in order until the
      modules are exposed or a step throws. */
  method Boot(host: Host) returns (o: Outcome)
    ensures IsPrefix(o.machine.trace, Plan(host))
    ensures o.Ready? <==> Completes(host)
    ensures o.Ready? ==> o.machine.stage == ModulesExposed && o.machine.trace == Plan(host)
    ensures o.Ready? ==> |o.machine.log.sinks| == 1
    ensures o.Ready? ==> InitializeLogging(InitialLogState, host.environment) == Success(o.machine.log)
    ensures o.Ready? ==> Reached(host, o.machine)
    ensures o.Aborted? ==> AbortedWell(host, o.error, o.machine)
  {
    var m := Start;
    while m.stage != ModulesExposed
      invariant Reached(host, m)
      decreases 6 - StageIndex(m.stage)
    {
      StepPreserves(host, m);
      var next := Step(host, m);
      if next.Aborted? {
        o := next;
        assert !Completes(host) by {
          NotCompletes(host, o.error, o.machine);
        }
        return;
      }
      m := next.machine;
    }
    o := Ready(m);
    assert o.machine.trace == Plan(host);
  }

  /** A run that aborted is one that could not have completed. */
  lemma NotCompletes(host: Host, error: BootError, m: Machine)
    requires AbortedWell(host, error, m)
    ensures !Completes(host)
  {
    if error.NativeFailure? {
      var i := |m.trace|;
      assert Fails(host, Plan(host)[i]);
    }
  }

  // ---------------------------------------------------------------------
  // Properties of the sequence
  // ---------------------------------------------------------------------

  /** The stage an event belongs to (1 = logging, ..., 6 = exposing). */
  function StageOf(e: Event): nat {
    match e
    case LoggingConfigured => 1
    case InitializeIcu(_) => 2
    case InitializeSnapshot(_) => 2
    case InitializePlatform => 3
    case InitializeV8 => 4
    case CreateIsolate => 5
    case EnterIsolate => 5
    case Expose(_) => 6
    case Log(_, m) =>
      match m
      case LoadingIcu(_) => 2
      case LoadingSnapshot(_) => 2
      case InitializingPlatform => 3
      case InitializingV8 => 4
      case ExposingModules => 6
  }

  lemma ChunkStage(p: FilePath, supportAst: bool, k: nat)
    requires 2 <= k <= 6
    ensures forall i :: 0 <= i < |Chunk(p, supportAst, k)| ==> StageOf(Chunk(p, supportAst, k)[i]) == k
  {
  }

  /** Events of the plan are grouped by stage, in stage order. */
  lemma {:induction false} PlanStages(p: FilePath, supportAst: bool, k: nat, i: nat)
    requires 1 <= k <= 6 && i < |PlanUpTo(p, supportAst, k)|
    ensures StageOf(PlanUpTo(p, supportAst, k)[i]) <= k
    ensures k >= 2 && i >= |PlanUpTo(p, supportAst, k - 1)| ==> StageOf(PlanUpTo(p, supportAst, k)[i]) == k
  {
    if k >= 2 {
      var before := PlanUpTo(p, supportAst, k - 1);
      var c := Chunk(p, supportAst, k);
      assert PlanUpTo(p, supportAst, k) == before + c;
      ChunkStage(p, supportAst, k);
      if i < |before| {
        PlanStages(p, supportAst, k - 1, i);
      } else {
        assert PlanUpTo(p, supportAst, k)[i] == c[i - |before|];
      }
    }
  }

  /** A trace that follows the plan and holds an event past the logging
      step comes from a run whose level parsed and whose path resolved. */
  lemma PlanPastLogging(host: Host, trace: seq<Event>, i: nat)
    requires IsPrefix(trace, Plan(host)) && i < |trace| && StageOf(trace[i]) >= 2
    ensures LocateData(host).Success?
    ensures Plan(host) == PlanUpTo(LocateData(host).value, host.supportAst, 6)
  {
    assert trace[i] == Plan(host)[i];
  }

  /** An event of stage `k` in a prefix of the plan means every call of the
      earlier stages is already in that prefix, in plan order. */
  lemma EarlierStagesInPlan(p: FilePath, supportAst: bool, trace: seq<Event>, i: nat)
    requires IsPrefix(trace, PlanUpTo(p, supportAst, 6)) && i < |trace| && StageOf(trace[i]) >= 2
    ensures IsPrefix(PlanUpTo(p, supportAst, StageOf(trace[i]) - 1), trace)
  {
    var k := StageOf(trace[i]);
    var plan := PlanUpTo(p, supportAst, 6);
    var before := PlanUpTo(p, supportAst, k - 1);
    PlanUpToPrefix(p, supportAst, k - 1, 6);
    assert trace[i] == plan[i];
    if i < |before| {
      PlanStages(p, supportAst, k - 1, i);
      assert false;
    }
    assert trace[..|before|] == plan[..|before|];
  }

  /** An event of stage `k` in a trace means every call of the earlier
      stages is already in that trace, in plan order. */
  lemma EarlierStagesDone(host: Host, trace: seq<Event>, i: nat)
    requires IsPrefix(trace, Plan(host)) && i < |trace| && StageOf(trace[i]) >= 2
    ensures LocateData(host).Success?
    ensures IsPrefix(PlanUpTo(LocateData(host).value, host.supportAst, StageOf(trace[i]) - 1), trace)
  {
    PlanPastLogging(host, trace, i);
    EarlierStagesInPlan(LocateData(host).value, host.supportAst, trace, i);
  }

  /** The native calls each plan prefix already holds. */
  lemma CallsUpTo(p: FilePath, supportAst: bool, k: nat)
    requires 2 <= k <= 6
    ensures InitializeIcu(p) in PlanUpTo(p, supportAst, k)
    ensures InitializeSnapshot(p) in PlanUpTo(p, supportAst, k)
    ensures k >= 3 ==> InitializePlatform in PlanUpTo(p, supportAst, k)
    ensures k >= 4 ==> InitializeV8 in PlanUpTo(p, supportAst, k)
    ensures k >= 5 ==> EnterIsolate in PlanUpTo(p, supportAst, k)
  {
    Layers(p, supportAst);
    var plan := PlanUpTo(p, supportAst, k);
    assert PlanUpTo(p, supportAst, 2)[2] == InitializeIcu(p);
    assert PlanUpTo(p, supportAst, 2)[4] == InitializeSnapshot(p);
    PlanUpToPrefix(p, supportAst, 2, k);
    assert plan[2] == InitializeIcu(p) && plan[4] == InitializeSnapshot(p);
    if k >= 3 {
      assert PlanUpTo(p, supportAst, 3)[6] == InitializePlatform;
      PlanUpToPrefix(p, supportAst, 3, k);
      assert plan[6] == InitializePlatform;
    }
    if k >= 4 {
      assert PlanUpTo(p, supportAst, 4)[8] == InitializeV8;
      PlanUpToPrefix(p, supportAst, 4, k);
      assert plan[8] == InitializeV8;
    }
    if k >= 5 {
      assert PlanUpTo(p, supportAst, 5)[10] == EnterIsolate;
      PlanUpToPrefix(p, supportAst, 5, k);
      assert plan[10] == EnterIsolate;
    }
  }

  lemma PrefixMembers(a: seq<Event>, b: seq<Event>)
    requires IsPrefix(a, b)
    ensures forall x :: x in a ==> x in b
  {
    assert a == b[..|a|];
  }

  /** An event of stage `k` at least 3 in a prefix of the plan: the calls
      of stage `k - 1` and before are in the prefix. */
  lemma EarlierCalls(p: FilePath, supportAst: bool, trace: seq<Event>, e: Event, k: nat)
    requires IsPrefix(trace, PlanUpTo(p, supportAst, 6)) && e in trace && StageOf(e) == k >= 3
    ensures forall x :: x in PlanUpTo(p, supportAst, k - 1) ==> x in trace
  {
    var i :| 0 <= i < |trace| && trace[i] == e;
    EarlierStagesInPlan(p, supportAst, trace, i);
    PrefixMembers(PlanUpTo(p, supportAst, k - 1), trace);
  }

  // The ordering of stages within a prefix of the full plan, one
  // dependency at a time.

  lemma PlatformAfterData(p: FilePath, supportAst: bool, trace: seq<Event>)
    requires IsPrefix(trace, PlanUpTo(p, supportAst, 6))
    ensures InitializePlatform in trace ==> InitializeIcu(p) in trace && InitializeSnapshot(p) in trace
  {
    if InitializePlatform in trace {
      EarlierCalls(p, supportAst, trace, InitializePlatform, 3);
      CallsUpTo(p, supportAst, 2);
    }
  }

  lemma EngineAfterPlatform(p: FilePath, supportAst: bool, trace: seq<Event>)
    requires IsPrefix(trace, PlanUpTo(p, supportAst, 6))
    ensures InitializeV8 in trace ==> InitializePlatform in trace
  {
    if InitializeV8 in trace {
      EarlierCalls(p, supportAst, trace, InitializeV8, 4);
      CallsUpTo(p, supportAst, 3);
    }
  }

  lemma IsolateAfterEngine(p: FilePath, supportAst: bool, trace: seq<Event>)
    requires IsPrefix(trace, PlanUpTo(p, supportAst, 6))
    ensures CreateIsolate in trace ==> InitializeV8 in trace
  {
    if CreateIsolate in trace {
      EarlierCalls(p, supportAst, trace, CreateIsolate, 5);
      CallsUpTo(p, supportAst, 4);
    }
  }

  lemma ExposeInsideIsolate(p: FilePath, supportAst: bool, trace: seq<Event>)
    requires IsPrefix(trace, PlanUpTo(p, supportAst, 6))
    ensures forall c :: Expose(c) in trace ==> EnterIsolate in trace
  {
    forall c | Expose(c) in trace ensures EnterIsolate in trace {
      EarlierCalls(p, supportAst, trace, Expose(c), 6);
      CallsUpTo(p, supportAst, 5);
    }
  }

  /** Each stage needs the one before it: the platform is initialised only
      after both data files were located with the same canonical path, V8
      only after the platform, the isolate only after V8 and each
      capability only inside the entered isolate. */
  lemma StagesInOrder(host: Host, trace: seq<Event>)
    requires IsPrefix(trace, Plan(host))
    ensures InitializePlatform in trace ==>
      && LocateData(host).Success?
      && InitializeIcu(LocateData(host).value) in trace
      && InitializeSnapshot(LocateData(host).value) in trace
    ensures InitializeV8 in trace ==> InitializePlatform in trace
    ensures CreateIsolate in trace ==> InitializeV8 in trace
    ensures forall c :: Expose(c) in trace ==> EnterIsolate in trace
  {
    if exists i :: 0 <= i < |trace| && StageOf(trace[i]) >= 2 {
      var i :| 0 <= i < |trace| && StageOf(trace[i]) >= 2;
      PlanPastLogging(host, trace, i);
      var p := LocateData(host).value;
      PlatformAfterData(p, host.supportAst, trace);
      EngineAfterPlatform(p, host.supportAst, trace);
      IsolateAfterEngine(p, host.supportAst, trace);
      ExposeInsideIsolate(p, host.supportAst, trace);
    }
  }

  /** The calls into foreign code, in order. */
  function Natives(trace: seq<Event>): seq<Event> {
    if trace == [] then []
    else if IsNative(trace[0]) then [trace[0]] + Natives(trace[1..])
    else Natives(trace[1..])
  }

  lemma {:induction false} NativesAppend(a: seq<Event>, b: seq<Event>)
    ensures Natives(a + b) == Natives(a) + Natives(b)
  {
    if a != [] {
      assert (a + b)[1..] == a[1..] + b;
      NativesAppend(a[1..], b);
    } else {
      assert a + b == b;
    }
  }

  /** Cutting a trace short cuts its native calls short. */
  lemma {:induction false} NativesPrefix(a: seq<Event>, b: seq<Event>)
    requires IsPrefix(a, b)
    ensures IsPrefix(Natives(a), Natives(b))
  {
    var rest := b[|a|..];
    assert b == a + rest;
    NativesAppend(a, rest);
    assert (Natives(a) + Natives(rest))[..|Natives(a)|] == Natives(a);
  }

  lemma {:induction false} NativesOfExposes(caps: seq<Capability>)
    ensures Natives(ExposeEvents(caps)) == ExposeEvents(caps)
  {
    if caps != [] {
      assert ExposeEvents(caps) == [Expose(caps[0])] + ExposeEvents(caps[1..]);
      NativesOfExposes(caps[1..]);
    }
  }

  lemma NativesOfPair(a: Event, b: Event)
    ensures Natives([a, b]) == (if IsNative(a) then [a] else []) + (if IsNative(b) then [b] else [])
  {
    assert [a, b][1..] == [b];
    assert [b][1..] == [];
    assert Natives([b]) == (if IsNative(b) then [b] else []);
  }

  lemma NativesOfDataCalls(p: FilePath)
    ensures Natives(DataCalls(p)) == [InitializeIcu(p), InitializeSnapshot(p)]
  {
    var d1 := [Log(Debug, LoadingIcu(p.dir)), InitializeIcu(p)];
    var d2 := [Log(Debug, LoadingSnapshot(p.dir)), InitializeSnapshot(p)];
    assert DataCalls(p) == d1 + d2;
    NativesAppend(d1, d2);
    NativesOfPair(d1[0], d1[1]);
    NativesOfPair(d2[0], d2[1]);
  }

  lemma NativesOfExposeCalls(supportAst: bool)
    ensures Natives(ExposeCalls(supportAst)) == ExposeEvents(Capabilities(supportAst))
  {
    var exposes := ExposeEvents(Capabilities(supportAst));
    NativesOfExposes(Capabilities(supportAst));
    NativesAppend([Log(Debug, ExposingModules)], exposes);
    assert [Log(Debug, ExposingModules)][1..] == [];
  }

  /** The native calls of the stages up to the entered isolate. */
  lemma NativesBeforeExposing(p: FilePath, supportAst: bool)
    ensures Natives(PlanUpTo(p, supportAst, 5)) ==
      [InitializeIcu(p), InitializeSnapshot(p),
       InitializePlatform, InitializeV8, CreateIsolate, EnterIsolate]
  {
    Layers(p, supportAst);
    assert [LoggingConfigured][1..] == [];
    NativesOfDataCalls(p);
    NativesAppend(PlanUpTo(p, supportAst, 1), DataCalls(p));
    NativesOfPair(PlatformCalls[0], PlatformCalls[1]);
    NativesAppend(PlanUpTo(p, supportAst, 2), PlatformCalls);
    NativesOfPair(EngineCalls[0], EngineCalls[1]);
    NativesAppend(PlanUpTo(p, supportAst, 3), EngineCalls);
    NativesOfPair(CreateIsolate, EnterIsolate);
    NativesAppend(PlanUpTo(p, supportAst, 4), IsolateCalls);
  }

  /** With no call failing, V8 and the capabilities are called in exactly
      this order: ICU data and the snapshot with the same canonical file
      path, the platform, the engine, the isolate (created, then entered),
      then each capability in its fixed order. */
  lemma NativeCallOrder(p: FilePath, supportAst: bool)
    ensures Natives(PlanUpTo(p, supportAst, 6)) ==
      [InitializeIcu(p), InitializeSnapshot(p),
       InitializePlatform, InitializeV8, CreateIsolate, EnterIsolate]
      + ExposeEvents(Capabilities(supportAst))
  {
    Layers(p, supportAst);
    NativesBeforeExposing(p, supportAst);
    NativesOfExposeCalls(supportAst);
    NativesAppend(PlanUpTo(p, supportAst, 5), ExposeCalls(supportAst));
  }

  /** The V8 data calls receive the script's own canonical path; as text it
      is never the directory named in the log messages. */
  lemma DataCallsUseFilePath(p: FilePath)
    requires p.name != ""
    ensures DataCalls(p)[1] == InitializeIcu(p) && DataCalls(p)[3] == InitializeSnapshot(p)
    ensures DataCalls(p)[0].message.dir == p.dir && DataCalls(p)[2].message.dir == p.dir
    ensures PathText(p) != ParentText(p)
  {
    if p.dir != [] {
      assert |PathText(p)| > |Rooted(p.dir)|;
    } else {
      assert |PathText(p)| > 1;
    }
  }

  /** Whatever fails, the native calls made are the start of the native
      calls of the plan: a failure truncates the sequence and never
      reorders or skips a stage. */
  lemma FailureTruncates(host: Host, trace: seq<Event>)
    requires IsPrefix(trace, Plan(host))
    ensures IsPrefix(Natives(trace), Natives(Plan(host)))
  {
    NativesPrefix(trace, Plan(host));
  }

  /** A bad `PYV8_LOG` or an unresolvable script path stops the run before
      any V8 call. */
  lemma EarlyFailureMakesNoNativeCall(host: Host, error: BootError, m: Machine)
    requires AbortedWell(host, error, m)
    requires error.ConfigurationError? || error.NoCallerFile? || error.PathNotFound?
    ensures Natives(m.trace) == []
    ensures error.ConfigurationError? ==> m.log.sinks == []
  {
    if !error.ConfigurationError? {
      assert m.trace == [LoggingConfigured];
      assert Natives(m.trace) == Natives(m.trace[1..]);
    }
  }

  /** Which error a run stops with is decided by the first stage that
      cannot proceed. */
  lemma AbortCause(host: Host, error: BootError, m: Machine)
    requires AbortedWell(host, error, m)
    ensures error.ConfigurationError? <==> InitializeLogging(InitialLogState, host.environment).Failure?
    ensures (error.NoCallerFile? || error.PathNotFound?) <==>
      InitializeLogging(InitialLogState, host.environment).Success? && LocateData(host).Failure?
  {
  }

  /** Counting the exposures of one capability. */
  lemma {:induction false} ExposeCount(caps: seq<Capability>, c: Capability)
    requires forall i, j :: 0 <= i < j < |caps| ==> caps[i] != caps[j]
    ensures multiset(ExposeEvents(caps))[Expose(c)] == if c in caps then 1 else 0
  {
    if caps != [] {
      assert ExposeEvents(caps) == [Expose(caps[0])] + ExposeEvents(caps[1..]);
      ExposeCount(caps[1..], c);
      assert c in caps <==> c == caps[0] || c in caps[1..];
    }
  }

  lemma NoExposeBeforeStageSix(p: FilePath, supportAst: bool, c: Capability)
    ensures Expose(c) !in PlanUpTo(p, supportAst, 5)
  {
    var five := PlanUpTo(p, supportAst, 5);
    forall i | 0 <= i < |five| ensures five[i] != Expose(c) {
      PlanStages(p, supportAst, 5, i);
    }
  }

  /** The last stage exposes every capability of the build exactly once. */
  lemma ExposeCountOfCalls(supportAst: bool, c: Capability)
    ensures multiset(ExposeCalls(supportAst))[Expose(c)] ==
      if c == CAstNode && !supportAst then 0 else 1
  {
    var caps := Capabilities(supportAst);
    ExposeCount(caps, c);
    assert c !in caps <==> c == CAstNode && !supportAst;
  }

  /** Every capability of the build is exposed exactly once by the full
      plan, and no other. */
  lemma ExposeCountOfPlan(p: FilePath, supportAst: bool, c: Capability)
    ensures multiset(PlanUpTo(p, supportAst, 6))[Expose(c)] ==
      if c == CAstNode && !supportAst then 0 else 1
  {
    var five := PlanUpTo(p, supportAst, 5);
    assert PlanUpTo(p, supportAst, 6) == five + ExposeCalls(supportAst);
    NoExposeBeforeStageSix(p, supportAst, c);
    assert multiset(five)[Expose(c)] == 0;
    ExposeCountOfCalls(supportAst, c);
  }

  /** A completed run exposes every capability exactly once, and
      `CAstNode` exactly when the build supports it. */
  lemma ExposedExactlyOnce(host: Host, c: Capability)
    requires Completes(host)
    ensures multiset(Plan(host))[Expose(c)] == if c == CAstNode && !host.supportAst then 0 else 1
  {
    assert Plan(host) == PlanUpTo(LocateData(host).value, host.supportAst, 6);
    ExposeCountOfPlan(LocateData(host).value, host.supportAst, c);
  }

  // ---------------------------------------------------------------------
  // What the sink writes during the run
  // ---------------------------------------------------------------------

  /** The progress records in `trace` that pass the filter of `log`; each
      of them is written once by every sink (`AdmittedMeansEmitted`). */
  function Admitted(log: LogState, trace: seq<Event>): seq<Progress> {
    if trace == [] then []
    else
      var rest := Admitted(log, trace[1..]);
      match trace[0]
      case Log(level, message) => if Passes(log.threshold, level) then [message] + rest else rest
      case _ => rest
  }

  /** With the one sink a run registers, a progress record is admitted
      exactly when emitting it writes one line, and is otherwise written
      nowhere. */
  lemma AdmittedMeansEmitted(log: LogState, level: Level, message: Progress, rec: Record)
    requires |log.sinks| == 1
    requires rec.severity == level && rec.message == MessageText(message)
    ensures Admitted(log, [Log(level, message)]) == [message] <==> Emit(log, rec) == [FormatLine(log.sinks[0], rec)]
    ensures Admitted(log, [Log(level, message)]) == [] <==> Emit(log, rec) == []
  {
    assert [Log(level, message)][1..] == [];
  }

  lemma {:induction false} AdmittedAppend(log: LogState, a: seq<Event>, b: seq<Event>)
    ensures Admitted(log, a + b) == Admitted(log, a) + Admitted(log, b)
  {
    if a != [] {
      assert (a + b)[1..] == a[1..] + b;
      AdmittedAppend(log, a[1..], b);
    } else {
      assert a + b == b;
    }
  }

  lemma {:induction false} NothingAdmittedByExposes(log: LogState, caps: seq<Capability>)
    ensures Admitted(log, ExposeEvents(caps)) == []
  {
    if caps != [] {
      assert ExposeEvents(caps) == [Expose(caps[0])] + ExposeEvents(caps[1..]);
      NothingAdmittedByExposes(log, caps[1..]);
    }
  }

  lemma AdmittedOfPair(log: LogState, a: Event, b: Event)
    ensures Admitted(log, [a, b]) ==
      (if a.Log? && Passes(log.threshold, a.level) then [a.message] else [])
      + (if b.Log? && Passes(log.threshold, b.level) then [b.message] else [])
  {
    assert [a, b][1..] == [b];
    assert [b][1..] == [];
    assert Admitted(log, [b]) == (if b.Log? && Passes(log.threshold, b.level) then [b.message] else []);
  }

  lemma AdmittedByDataCalls(log: LogState, p: FilePath)
    ensures Admitted(log, DataCalls(p)) ==
      if AtLeast(Debug, log.threshold) then [LoadingIcu(p.dir), LoadingSnapshot(p.dir)] else []
  {
    var d1 := [Log(Debug, LoadingIcu(p.dir)), InitializeIcu(p)];
    var d2 := [Log(Debug, LoadingSnapshot(p.dir)), InitializeSnapshot(p)];
    assert DataCalls(p) == d1 + d2;
    AdmittedAppend(log, d1, d2);
    AdmittedOfPair(log, d1[0], d1[1]);
    AdmittedOfPair(log, d2[0], d2[1]);
  }

  lemma AdmittedByExposeCalls(log: LogState, supportAst: bool)
    ensures Admitted(log, ExposeCalls(supportAst)) ==
      if AtLeast(Debug, log.threshold) then [ExposingModules] else []
  {
    var exposes := ExposeEvents(Capabilities(supportAst));
    NothingAdmittedByExposes(log, Capabilities(supportAst));
    AdmittedAppend(log, [Log(Debug, ExposingModules)], exposes);
    assert [Log(Debug, ExposingModules)][1..] == [];
  }

  lemma AdmittedUpToPlatform(log: LogState, p: FilePath, supportAst: bool)
    ensures Admitted(log, PlanUpTo(p, supportAst, 3)) ==
      if AtLeast(Debug, log.threshold)
      then [LoadingIcu(p.dir), LoadingSnapshot(p.dir), InitializingPlatform]
      else []
  {
    Layers(p, supportAst);
    assert [LoggingConfigured][1..] == [];
    AdmittedByDataCalls(log, p);
    AdmittedAppend(log, PlanUpTo(p, supportAst, 1), DataCalls(p));
    AdmittedOfPair(log, PlatformCalls[0], PlatformCalls[1]);
    AdmittedAppend(log, PlanUpTo(p, supportAst, 2), PlatformCalls);
  }

  lemma AdmittedBeforeExposing(log: LogState, p: FilePath, supportAst: bool)
    ensures Admitted(log, PlanUpTo(p, supportAst, 5)) ==
      if AtLeast(Debug, log.threshold)
      then [LoadingIcu(p.dir), LoadingSnapshot(p.dir), InitializingPlatform, InitializingV8]
      else []
  {
    Layers(p, supportAst);
    AdmittedUpToPlatform(log, p, supportAst);
    AdmittedOfPair(log, EngineCalls[0], EngineCalls[1]);
    AdmittedAppend(log, PlanUpTo(p, supportAst, 3), EngineCalls);
    AdmittedOfPair(log, CreateIsolate, EnterIsolate);
    AdmittedAppend(log, PlanUpTo(p, supportAst, 4), IsolateCalls);
  }

  /** The run's own records are all at `debug`: a completed run writes its
      five progress messages when the threshold admits `debug`, and nothing
      otherwise (in particular at the default `error`). */
  lemma ProgressMessages(log: LogState, p: FilePath, supportAst: bool)
    ensures AtLeast(Debug, log.threshold) ==>
      Admitted(log, PlanUpTo(p, supportAst, 6)) ==
        [LoadingIcu(p.dir), LoadingSnapshot(p.dir), InitializingPlatform, InitializingV8, ExposingModules]
    ensures !AtLeast(Debug, log.threshold) ==> Admitted(log, PlanUpTo(p, supportAst, 6)) == []
  {
    Layers(p, supportAst);
    AdmittedBeforeExposing(log, p, supportAst);
    AdmittedByExposeCalls(log, supportAst);
    AdmittedAppend(log, PlanUpTo(p, supportAst, 5), ExposeCalls(supportAst));
  }

  /** With `PYV8_LOG` unset, a run that exposed its modules has one sink
      and none of its progress records passes that sink's filter. */
  lemma DefaultRunIsSilent(host: Host, m: Machine)
    requires Reached(host, m) && m.stage == ModulesExposed
    requires LogVariable !in host.environment
    ensures |m.log.sinks| == 1 && m.log.threshold == Error
    ensures Admitted(m.log, m.trace) == []
  {
    ProgressMessages(m.log, LocateData(host).value, host.supportAst);
  }
}
