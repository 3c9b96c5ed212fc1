# pyv8 module initialisation, modelled in Dafny

This project models the native side of the `_PyV8` Python extension module (src/PyV8.cpp). The model has three parts:

- **Severity codec** (`severity.dfy`, module `Severity`). This is the `severity_level` enumeration with its stream operators:
  - `operator<<` writes one of six upper-case literals;
  - `operator>>` reads one whitespace-delimited word and maps it back to a level;
  - any other word throws `std::invalid_argument` carrying that word.
  - The word extraction of `stream >> s` is modelled twice: as a predicate with its unique solution (`IsTokenSplit`, `FirstToken`) and as the character loop (`ReadToken`).
- **Logging configuration** (`logging.dfy`, module `Logging`). This is `initialize_logging`:
  - the process-wide threshold `g_logging_level`, which defaults to `error`;
  - the optional `PYV8_LOG` override;
  - the one text sink it registers. The sink's filter `severity >= boost::ref(g_logging_level)` reads the threshold each time a record is emitted.
  - The sink's formatter writes the bracketed ` [isolate:context]` segment only when `g_logging_level >= debug` held at the moment the formatter was built and the record has an `Isolate` attribute.
- **Bootstrap sequence** (`bootstrap.dfy`, module `Bootstrap`). This is `BOOST_PYTHON_MODULE(_PyV8)` and `load_external_data`, modelled as a state machine with the stages below. Each stage appends events to a trace.

  | stage | calls it makes |
  |---|---|
  | logging configured | `initialize_logging` |
  | data located | ICU data, then the external snapshot |
  | platform ready | `InitializePlatform` |
  | engine ready | `V8::Initialize` |
  | root context entered | create the isolate, then enter it |
  | modules exposed | one `Expose()` per capability |

  - Each V8 call and each `Expose()` is an opaque event. The host says which of them throw (`Host.faulty`), and the first one that throws ends the run. A failure a call reports only through its return value does not stop the run, because the source ignores those values (see "Left out").
  - `Boot` runs the machine. It is proved equal to an independent reference, `Plan`: the flat list of every call the stages make.
  - On top of `Plan` the model proves four groups of properties:
    - call order;
    - that each capability is exposed exactly once;
    - that a failure only truncates the trace;
    - which progress messages the sink writes.

`results.dfy` holds the `Option` and `Result` types. They stand in for C++ exceptions and absent values.

Two points of interpretation:

- **Level order is an assumption.** The enumeration `severity_level` is declared in Config.h, which is not part of this model. Its order is assumed to be trace < debug < info < warning < error < fatal. That is the order of the parse chain, and it agrees with the default `error`.
- **The formatter gate is modelled as written.** The segment is gated by `g_logging_level >= debug` (src/PyV8.cpp:110). In the assumed order that holds for every threshold except `trace`, the default `error` included:
  - `Logging.IdentityShownAtDefault` shows the segment present at the default threshold;
  - `Logging.IdentityHiddenAtTrace` shows it absent at `trace`.

## Model

| member | source | states |
|---|---|---|
| Severity.Format | src/PyV8.cpp:71-85 | every level is written as one of the six literals, and reading that literal back yields the same level |
| Severity.ParseWord | src/PyV8.cpp:60-66 | a word is accepted exactly when it is one of the six literals; otherwise the error carries the word itself |
| Severity.FirstToken | src/PyV8.cpp:56-58 | the word `stream >> s` extracts: after whitespace only, free of whitespace, ending at whitespace or end of input; empty only for a blank input |
| Severity.TokenSplitUnique | src/PyV8.cpp:58 | an input has exactly one such split into skipped whitespace and first word |
| Severity.ReadToken | src/PyV8.cpp:56-58 | the skip-then-collect character loop extracts exactly the first word of the input |
| Severity.Parse | src/PyV8.cpp:52-69 | a successful read means the first word was that level's literal; a failed read means the first word is none of the literals, and the error carries it |
| Severity.FormatInjective | src/PyV8.cpp:71-85 | two different levels never print the same text |
| Severity.FormatThenParse | src/PyV8.cpp:52-85 | writing a level and reading it back yields that level |
| Severity.ParseThenFormat | src/PyV8.cpp:52-85 | reading any of the six literals and writing the level back yields the literal |
| Severity.ParseFirstWordOnly | src/PyV8.cpp:56-58 | leading whitespace is skipped and anything after the word and a whitespace character is ignored |
| Severity.ParseRejectsOtherWords | src/PyV8.cpp:60-66 | any first word that is not exactly a literal throws with that word, whatever follows it |
| Severity.ParseRejectsBlank | src/PyV8.cpp:56-66 | a blank or empty input throws with the empty word |
| Severity.ParseRejectsLowerCase | src/PyV8.cpp:60-66 | matching is case-sensitive: `debug` is rejected |
| Severity.ParseRejectsMixedCase | src/PyV8.cpp:60-66 | matching is case-sensitive: `Warning` is rejected |
| Logging.ConfigureThreshold | src/PyV8.cpp:88-92 | the threshold is unchanged when `PYV8_LOG` is unset; the step fails exactly when the variable is set and its first word is none of the six literals, carrying that word; when it succeeds on a set variable, the new level prints as that first word |
| Logging.InitializeLogging | src/PyV8.cpp:87-122 | it fails exactly when `PYV8_LOG` is set and does not parse, and then registers no sink; otherwise it appends exactly one sink and keeps the earlier ones; the threshold is kept when the variable is unset and is the level whose literal was read when it is set; the new sink's identity gate is open exactly when the threshold is not `trace` |
| Logging.FormatLine | src/PyV8.cpp:107-115 | a line starts with the timestamp and ends with ` <LEVEL> message`; it holds anything in between exactly when the gate captured at construction is open and the record carries an `Isolate` attribute |
| Logging.DefaultConfiguration | src/PyV8.cpp:44 | without `PYV8_LOG` the threshold stays `error` and one sink with an open gate is registered |
| Logging.ConfiguredFromVariable | src/PyV8.cpp:88-92 | a `PYV8_LOG` holding a level literal, with any surrounding whitespace and trailing words, sets the threshold to that level and registers one sink |
| Logging.InvalidVariableRejected | src/PyV8.cpp:88-92 | `VERBOSE`, `debug` and the empty value abort configuration with the offending word |
| Logging.FilterInclusive | src/PyV8.cpp:117-119 | with one sink a record is written exactly when its severity is at or above the threshold |
| Logging.WarningBoundary | src/PyV8.cpp:117-119 | threshold `warning` writes `warning` and `error` records and drops `info` |
| Logging.DefaultDropsVerbose | src/PyV8.cpp:44 | at the default threshold no `trace`, `debug`, `info` or `warning` record is written |
| Logging.ThresholdReadAtEmission | src/PyV8.cpp:117-119 | after the threshold cell is overwritten, the filter uses the new value, while the sink and its formatter stay the same |
| Logging.IdentityShownAtDefault | src/PyV8.cpp:107-115 | at the default threshold an `error` record with an `Isolate` attribute is written with the bracketed segment |
| Logging.IdentityHiddenAtTrace | src/PyV8.cpp:110-113 | with `PYV8_LOG=TRACE` every line is the timestamp followed directly by ` <LEVEL> message` |
| Bootstrap.Capabilities | src/PyV8.cpp:161-169 | the exposed classes start with `CJavascriptException` and end with `CLocker`, are pairwise distinct, and include `CAstNode` exactly when the build has `SUPPORT_AST` |
| Bootstrap.Perform | src/PyV8.cpp:139-170 | calls are made in order until the first that throws: the calls made are a prefix, none of them threw, and the call that threw is the next one |
| Bootstrap.Advance | src/PyV8.cpp:145-169 | a stage moves on exactly when none of its calls throws, and its trace only ever grows |
| Bootstrap.ConfigurePreserves | src/PyV8.cpp:141 | from the initial state, the logging stage either reaches the state whose log is the configured one and whose trace is the plan's first event, or aborts with the parser's error, no trace and no sink, exactly as the reference plan for that environment says |
| Bootstrap.LocatePreserves | src/PyV8.cpp:143-145 | after logging, a missing frame or unresolvable path aborts with that error and the trace the plan stops at; otherwise the data stage either reaches the plan up to the data calls or aborts at the plan's next call |
| Bootstrap.Step | src/PyV8.cpp:139-170 | each successful transition moves exactly one stage forward |
| Bootstrap.StepPreserves | src/PyV8.cpp:139-170 | from any reached state, a step either reaches the next stage with the trace equal to the reference plan up to it, or aborts in a state consistent with the plan |
| Bootstrap.Boot | src/PyV8.cpp:139-170 | the trace is always a prefix of the reference plan; the module finishes initialising exactly when no step fails; then every stage ran, the trace is the whole plan, and the log state (threshold and the one sink) is the one `initialize_logging` produced for the environment; otherwise the error names the first stage that failed and the log state is the configured one, or the initial one when configuration failed |
| Bootstrap.NotCompletes | src/PyV8.cpp:139-170 | an aborted run is one in which the level did not parse, the path did not resolve, or a planned call throws |
| Bootstrap.NativeCallOrder | src/PyV8.cpp:124-169 | the foreign calls of a full run are ICU data and snapshot with the same path, platform, V8, isolate created, isolate entered, then each capability in its fixed order |
| Bootstrap.StagesInOrder | src/PyV8.cpp:141-169 | in any run the platform is initialised only after both data calls with the located path, V8 only after the platform, the isolate only after V8, and every capability only after the isolate was entered |
| Bootstrap.PlatformAfterData | src/PyV8.cpp:145-149 | in a prefix of the plan, a platform call means both data calls are present |
| Bootstrap.EngineAfterPlatform | src/PyV8.cpp:149-153 | in a prefix of the plan, a V8 initialisation means the platform call is present |
| Bootstrap.IsolateAfterEngine | src/PyV8.cpp:153-155 | in a prefix of the plan, an isolate creation means V8 was initialised |
| Bootstrap.ExposeInsideIsolate | src/PyV8.cpp:157-169 | in a prefix of the plan, every exposure comes with the isolate entered |
| Bootstrap.DataCallsUseFilePath | src/PyV8.cpp:128-136 | both V8 data calls receive the file path itself; the log messages name its directory, and as text the two differ |
| Bootstrap.FailureTruncates | src/PyV8.cpp:139-170 | whatever throws, the foreign calls made are a prefix of those of the full plan, never reordered or skipped |
| Bootstrap.EarlyFailureMakesNoNativeCall | src/PyV8.cpp:141-145 | a bad `PYV8_LOG` or an unresolvable path stops the run before any V8 call; a bad `PYV8_LOG` also leaves no sink registered |
| Bootstrap.AbortCause | src/PyV8.cpp:141-145 | a run aborts with a configuration error exactly when the level does not parse, and with a path error exactly when the level parses and the path does not resolve |
| Bootstrap.ExposeCountOfPlan | src/PyV8.cpp:161-169 | the full plan exposes every capability once, except `CAstNode` without `SUPPORT_AST`, which it never exposes |
| Bootstrap.ExposedExactlyOnce | src/PyV8.cpp:161-169 | a completed run exposes every capability exactly once, and `CAstNode` exactly when the build supports it |
| Bootstrap.ProgressMessages | src/PyV8.cpp:130-159 | the filter admits the five `debug` progress messages of a full run, in order, when the threshold admits `debug`, and none of them otherwise |
| Bootstrap.AdmittedMeansEmitted | src/PyV8.cpp:117-121 | with the one sink a run registers, a progress record is admitted exactly when emitting it writes that sink's line, and otherwise nothing is written |
| Bootstrap.DefaultRunIsSilent | src/PyV8.cpp:130-159 | with `PYV8_LOG` unset, a run that exposed its modules holds threshold `error` and one sink, and none of its progress records passes the filter |

## Left out

- Python frame introspection (`PyThreadState_Get()->frame`, `co_filename`, `PyString_AsString`) is replaced by an input: the caller's file name, which may be absent. In C++ a missing frame dereferences a null pointer. Here it is the error `NoCallerFile`, so that the case is visible rather than undefined.
- `fs::canonical` and `fs::current_path` become an input map from file names to canonical paths. A name missing from the map models the `filesystem_error` that canonicalisation throws. Symlinks and existence checks are not modelled.
- Path text is approximated by `PathText` and `ParentText`. The model keeps a canonical path as its directory components and file name, not the exact formatting of boost::filesystem.
- Boost.Log machinery is not modelled:
  - sink frontends and `synchronous_sink` locking;
  - the `std::clog` stream, `null_deleter` and `auto_flush`;
  - the common attributes;
  - filter and formatter factory registration;
  - the rendering of timestamps (`%Y-%m-%d %H:%M:%S`) and of the `Isolate`/`Context` pointer attributes. Both arrive as text.
- The bodies of the V8 calls (`InitializeICUDefaultLocation`, `InitializeExternalStartupData`, `CreateDefaultPlatform`, `InitializePlatform`, `Initialize`, the `CIsolate` constructor and `Enter`) and of every `Expose()` are not part of this model. Each is one opaque event. The host's `faulty` set says which of them throw.
- `CreateDefaultPlatform` and `InitializePlatform` are folded into one event.
- `faulty` means "throws". `InitializeICUDefaultLocation` (src/PyV8.cpp:132) and `V8::Initialize` (src/PyV8.cpp:153) report failure through a `bool` that the source ignores; such a failure does not stop the run, so the model does not represent it.
- `getenv` yields bytes while the model reads the variable as a `string` of characters. Parsing agrees, because the whitespace set and the literals are ASCII; only the representation of the word carried by the error differs for non-ASCII values.
- Logging itself never fails in the model: records are handed to the logger without error.
- Memory ownership (the `CIsolate` allocated with `new` and never freed) is not modelled.
- Re-entrant or repeated module initialisation is not modelled; `Boot` always starts from the initial state. The source makes no provision for either.
- Concurrency is not modelled: another thread writing `g_logging_level` is represented only by the new threshold passed to `Logging.ThresholdReadAtEmission`.
- The declaration of `severity_level` (Config.h) is not part of this model; its order is assumed as described above.
- Logging.FormatLine: the contract fixes the timestamp prefix, the ` <LEVEL> message` suffix and exactly when something lies between them. It does not spell out the characters of the ` [isolate:context]` segment; a missing `Context` attribute renders as nothing.
