# Command-line bootstrap: logger policy and profiling lifecycle

This project models the bootstrap of a Go command-line application template.
It covers the code that runs around every subcommand:

- the persistent flags and their defaults;
- the hooks registered with cobra, and their order;
- the logger policy: how `--debug` and `--loglevel` select one of six zerolog
  severities or abort, and how an error field is cleaned (three
  `strings.ReplaceAll` passes) and coloured (bold inside red, as ANSI
  SGR sequences `ESC [ n m … ESC [0m` per section 8.3.117 of ECMA-48,
  honouring `NO_COLOR`);
- the CPU and heap profiling lifecycle enabled by `--profiledir`;
- `Execute`, which prints a subcommand's error and exits with status -1.

The model has three modules:

- `Text` (`text.dfy`): Go's `strings.ReplaceAll` is defined recursively.
  Matches do not overlap, are found left to right, and the replacement text
  is never rescanned; an empty pattern matches around every rune. The
  module also has `%d` decimal rendering with a parser for it.
- `Logging` (`logging.dfy`): level resolution, `Colorize` with a decoder
  `ParseStyled` that reads a coloured string back into its colour and text,
  the error cleaner, `SetupLogger` and the formatter closure. The class
  `LogState` holds zerolog's global level and `log.Logger`; its method
  `ConfigureLogger` updates them.
- `Root` (`root.dfy`): the options record, the flag table, the hook lists,
  and the class `Process`. `Process` holds `RootConfig`, the version and a
  trace of effects. Each hook and `Execute` is a method on `Process`, proved
  against a pure plan function (`InitConfigStep`, `InitializerStep`,
  `FinalizerStep`, `Lifecycle`). The ordering and failure-path lemmas are
  stated over those plan functions.

Calls into the operating system, pprof, the Go runtime, viper and cobra are
modelled as events appended to the trace. Whether a call that can fail
succeeded is an input, collected in a `World` record. This covers the config
file found, the CPU file create and profile start, the subcommand's error,
and the heap file create and write. `NO_COLOR` is an explicit string
argument. `log.Fatal` is a `Fatal(msg, err)` status, and nothing runs after
it.

## Behaviour worth noting

- Two init hooks are registered, `InitConfig` then `ProfilingInitializer`.
  `InitConfig` configures the logger and then runs configuration discovery,
  rather than these being separate hooks.
- After the finalizer closes the CPU profile file, `ProfilingCPUFile` is not
  reset to nil.
- Close errors are discarded (`_ = f.Close()`), not logged.
- The third cleaning pass does not rescan its own output. Three newline
  escapes in a row, `x\n\n\ny`, become `x |  | y`, with a doubled delimiter
  (`Logging.CleanErrTripleNewline`). This is what Go's `strings.ReplaceAll`
  does.

## Model

| member | source | states |
|---|---|---|
| Text.ReplaceAll | cmd/logging.go:47-50 | `strings.ReplaceAll`: non-overlapping matches found left to right, replacement text not rescanned, an empty pattern matching around every rune; its properties are the lemmas below |
| Text.ReplaceAllNoMatch | cmd/logging.go:47-50 | a string without the (non-empty) pattern is returned unchanged by `ReplaceAll` |
| Text.ReplaceAllSelf | cmd/logging.go:47-50 | replacing a pattern by itself changes nothing, for every pattern including the empty one |
| Text.ReplaceAllLeavesNoPair | cmd/logging.go:47-50 | after a pass, a two-character sequence is absent when it is the pattern itself or was absent before, provided the replacement cannot form it |
| Text.NatToDecimal | cmd/logging.go:75 | the rendering of a natural number is non-empty, all digits, and starts with `0` only for zero |
| Text.IntToDecimal | cmd/logging.go:75 | `%d` of an int is non-empty, digits except a leading `-`, and the minus sign appears exactly for negative numbers |
| Text.DecimalRoundTrip | cmd/logging.go:75 | reading back the numeral of `n` gives `n` |
| Text.IntRoundTrip | cmd/logging.go:75 | parsing `%d` of any integer gives that integer |
| Text.ParseIntOnlyRenderings | cmd/logging.go:75 | every string the numeral parser accepts is exactly the `%d` rendering of its value, so parsing and `%d` are inverse both ways |
| Logging.NamedLevel | cmd/logging.go:16-31 | a recognised name yields the severity with that name; the result is absent exactly when the name is not one of the six |
| Logging.NamedLevelRoundTrip | cmd/logging.go:16-28 | each of the six names maps to its own severity |
| Logging.ResolveLevel | cmd/logging.go:12-31 | debug selects Debug whatever the name; otherwise a level is chosen exactly for the six names, and it carries that name |
| Logging.LogState.constructor | cmd/logging.go:12-35 | zerolog's global level and `log.Logger`, the state `ConfigureLogger` replaces, start at the values given |
| Logging.LogState.ConfigureLogger | cmd/logging.go:12-35 | fatal with `"invalid log level: " + LogLevel` exactly when no level resolves, touching neither level nor logger; otherwise the level is the resolved one and the logger is `SetupLogger(Color)`, both functions of the inputs alone |
| Logging.Colorize | cmd/logging.go:67-76 | the input is returned unchanged exactly when disabled, `NO_COLOR` is non-empty or the colour is 0; otherwise the result starts with ESC and ends with the reset |
| Logging.ColorizeParses | cmd/logging.go:75 | a coloured string decodes as `ESC [ n m text ESC [0m` to exactly the colour code and the input |
| Logging.ParseStyledOnlyColorized | cmd/logging.go:75 | every string that decodes to a code and a text is exactly `ESC [` code `m` text `ESC [0m`, which is what `Colorize` writes for a non-zero code without `NO_COLOR` |
| Logging.CleanErr | cmd/logging.go:47-50 | the three replacement passes in their fixed order: backslash-t by a space, backslash-n by space-bar-space, then a doubled delimiter by one bar; its properties are the lemmas below |
| Logging.CleanErrRemovesEscapes | cmd/logging.go:47-50 | after the first two passes no backslash-t or backslash-n remains, and the third pass does not bring one back |
| Logging.CleanErrKeepsCleanText | cmd/logging.go:47-50 | a string containing none of the three patterns is returned unchanged |
| Logging.CleanErrTabNewline | cmd/logging.go:47-50 | in `a\tb\nc` the tab escape becomes one space and the newline escape a space, a bar and a space |
| Logging.CleanErrDoubleNewline | cmd/logging.go:47-50 | in `x\n\ny` the two newline escapes collapse into one space-bar-space separator |
| Logging.CleanErrTripleNewline | cmd/logging.go:47-50 | in `x\n\n\ny` two separators remain, joined by two spaces: the third pass is a single scan |
| Logging.FormatErrFieldValue | cmd/logging.go:43-53 | the closure: clean the error, wrap it in bold (1), then in red (31), with colouring disabled when colour is not enabled; its properties are the lemmas below |
| Logging.SetupLoggerFormatsErrors | cmd/logging.go:38-53 | the logger `SetupLogger` builds formats an error as exactly the cleaned text when colour is off or `NO_COLOR` is set, and otherwise as red on the outside, bold inside, around exactly the cleaned text |
| Logging.FormatErrPlain | cmd/logging.go:43-53 | without colour, or with `NO_COLOR` set, the formatted error is exactly the cleaned string |
| Logging.FormatErrBoldInsideRed | cmd/logging.go:43-53 | with colour, the formatted error decodes as red on the outside, bold inside, around exactly the cleaned string |
| Root.BindDefault | cmd/root.go:60-71 | a flag's default is stored in the `RootConfig` field it is bound to |
| Root.FlagDefaults | cmd/root.go:60-71 | binding the defaults of the registered flag table `PersistentFlags` (debug, loglevel with shorthand `L`, color, profiledir) gives the options record `DefaultOptions`: debug false, level "info", colour on, profiling off, whatever the fields held before |
| Root.InitConfigStep | cmd/root.go:75-88 | an invalid level is fatal with no effects; otherwise the logger is installed first, configuration discovery second, and no profiling or subcommand event occurs |
| Root.InitializerStep | cmd/root.go:116-127 | no effect without a directory; otherwise the CPU file on `Join(dir, "profile_cpu.pb.gz")` is created first; a failed create is fatal and never starts profiling; a failed start is fatal; it continues exactly when it needs to do nothing or both calls succeed |
| Root.FinalizerStep | cmd/root.go:91-113 | no effect without a directory; otherwise CPU profiling is stopped first; it continues exactly when it needs to do nothing or the heap create and write both succeed |
| Root.FinalizerClosesCpuFile | cmd/root.go:94-96 | the CPU file is closed exactly when profiling is on and a handle is held |
| Root.FinalizerOrder | cmd/root.go:93-103 | CPU profiling stops before the CPU file is closed, and GC runs before the heap file is created |
| Root.FinalizerHeapCreateFails | cmd/root.go:103-106 | a failed heap create is fatal with `"could not write memory profile: "`, is the last effect, and nothing is written or closed for the heap |
| Root.FinalizerClosesHeapOnce | cmd/root.go:107-111 | once the heap file exists it is written, then closed exactly once as the last effect; a failed write is fatal only after that close |
| Root.InitPhase | cmd/root.go:57 | the init hooks continue exactly when both `InitConfig` and `ProfilingInitializer` continue, and never run the subcommand |
| Root.RegisteredHooks | cmd/root.go:57-58 | running the registered list `InitHooks` in order, stopping at the first fatal hook, is exactly the init phase; running `FinalizeHooks` is exactly the finalizer |
| Root.Lifecycle | cmd/root.go:31-37 | an invalid level ends the run before any effect; a run exits only with status -1 and only on a subcommand error, and returns normally only without one |
| Root.LifecycleRunsCommand | cmd/root.go:57-58 | the subcommand runs exactly when both init hooks continue |
| Root.LifecycleExitsOnError | cmd/root.go:33-36 | the process exits with -1 exactly when the init hooks and the finalizer continue and the subcommand returned an error, which is then the last line printed |
| Root.NoProfilingWithoutDir | cmd/root.go:91-127 | without a profiling directory no file, profiler or GC event happens in the whole run |
| Root.ProfilingBracketsCommand | cmd/root.go:55-58 | with a profiling directory, CPU profiling starts before the subcommand and stops after it |
| Root.LoggerFirst | cmd/root.go:57-76 | every profiling event and the subcommand come after the logger is installed (first) and configuration discovery (second) |
| Root.Process.constructor | cmd/root.go:53-72 | the process starts with the default options, no CPU handle, no version and an empty trace |
| Root.Process.ParseFlags | cmd/root.go:60-71 | the bound fields take the parsed values and nothing else changes |
| Root.Process.InitConfig | cmd/root.go:75-88 | the status and the new trace are those of `InitConfigStep`; the level and logger are set as `ConfigureLogger`'s contract says |
| Root.Process.ProfilingInitializer | cmd/root.go:116-127 | the status and trace are those of `InitializerStep`; without a directory `ProfilingCPUFile` is unchanged, otherwise it holds the file on the CPU path exactly when `os.Create` succeeded and is nil when it failed |
| Root.Process.ProfilingFinalizer | cmd/root.go:91-113 | the status and trace are those of `FinalizerStep`, and no option or handle changes |
| Root.Process.RunHook | cmd/root.go:57-58 | running a registered hook takes exactly that hook's step, sets the CPU handle only for the initializer, and changes the level and logger only when `InitConfig` continues, to the resolved level and `SetupLogger(Color)` |
| Root.Process.RunInitHooks | cmd/root.go:57 | the init hooks in registration order take exactly `InitPhase`'s step; with a valid level the logger state is the resolved level and `SetupLogger(Color)` and the CPU handle is the initializer's, otherwise neither changes |
| Root.Process.Execute | cmd/root.go:31-37 | the version is stored; the trace and termination are exactly those of `Lifecycle`; with a valid level the logger state is the resolved level and `SetupLogger(Color)` and the CPU handle is the initializer's, otherwise neither changes |

## Left out

- Viper's configuration search (`SetConfigName`, `AddConfigPath`, `SetEnvPrefix`, `AutomaticEnv`, `ReadInConfig`) is one `ConfigDiscovery` event; its result is an input.
- Cobra's flag parsing, help output, argument errors and dispatch are left out; dispatch is a `CommandBody` event and its returned error is an input. Cobra's finalizers run even when the subcommand fails, and the model follows that.
- `pprof`, `runtime.GC`, `os.Create` and `Close` are events with given outcomes. `filepath.Join` is an uninterpreted pair: no path cleaning.
- zerolog's rendering, the numeric order of levels, and whether a given `log.Debug()` line is printed all happen inside zerolog and are not modelled. The debug line for a found config file is an event either way.
- zerolog's level and logger before `ConfigureLogger` runs are parameters of the `LogState` constructor. `log.Output` is modelled as a fresh console logger, without the fields it copies from the previous global logger.
- `log.Fatal`'s exit is a terminal `Fatal` status. `os.Exit(-1)` is the termination `Exited(-1)`; the mapping of -1 to an operating-system exit status is left out.
- The `err.(string)` type assertion, which panics on a non-string value, and `fmt`'s `%s`/`%v` on arbitrary values are left out: the error field is a string. A character stands for one rune, so byte-level behaviour of non-ASCII text is not modelled.
- The results of the CPU and heap `Close` calls are discarded by the code, so they are not inputs.
- Concurrency, such as pprof's sampling in the runtime, is not modelled.
- `docs/docs.go`, the offline documentation generator, is not part of this model.
- Root.Process.ParseFlags: requires that no CPU handle is held yet, since cobra parses flags before any hook runs.
