/** The bootstrap orchestrator: the root command's options, the hooks it
    registers, the CPU and heap profiling lifecycle, and `Execute`.

    Every call into the operating system, pprof, the Go runtime, viper or
    cobra is an event appended to a trace; whether a call that can fail
    succeeded is an input (`World`). `log.Fatal` ends the process, which the
    model records as a `Fatal` status after which nothing else runs. */
module Root {
  import opened Text
  import opened Logging

  /** The flag-bound fields of `CmdRootOptions`. */
  datatype Options = Options(debug: bool, logLevel: string, color: bool, profilingDir: string)

  /** What `init` binds before any flag is parsed. */
  const DefaultOptions: Options := Options(false, "info", true, "")

  datatype FlagValue = BoolValue(b: bool) | StringValue(s: string)

  /** A persistent flag of the root command: name, shorthand ("" for none),
      default and help text. */
  datatype Flag = Flag(name: string, shorthand: string, default: FlagValue, usage: string)

  /** The persistent flags `init` registers, in registration order. */
  const PersistentFlags: seq<Flag> := [
    Flag("debug", "", BoolValue(false),
         "log additional information about what the tool is doing. Overrides --loglevel"),
    Flag("loglevel", "L", StringValue("info"), "set zerolog log level"),
    Flag("color", "", BoolValue(true), "enable colorized output"),
    Flag("profiledir", "", StringValue(""), "directory to write pprof profile data to")
  ]

  /** The options a flag's default gives the field it is bound to. */
  function BindDefault(o: Options, f: Flag): Options {
    match (f.name, f.default)
    case ("debug", BoolValue(b)) => o.(debug := b)
    case ("loglevel", StringValue(s)) => o.(logLevel := s)
    case ("color", BoolValue(b)) => o.(color := b)
    case ("profiledir", StringValue(s)) => o.(profilingDir := s)
    case _ => o
  }

  /** Binding every registered flag's default yields `DefaultOptions`, whatever
      the fields held before: debug off, level "info", colour on, profiling off. */
  lemma FlagDefaults(o: Options)
    ensures BindDefault(BindDefault(BindDefault(BindDefault(o, PersistentFlags[0]),
              PersistentFlags[1]), PersistentFlags[2]), PersistentFlags[3]) == DefaultOptions
  {
  }

  /** The hooks `init` registers with cobra. */
  datatype Hook = InitConfigHook | ProfilingInitializerHook | ProfilingFinalizerHook

  /** `cobra.OnInitialize(InitConfig, ProfilingInitializer)`. */
  const InitHooks: seq<Hook> := [InitConfigHook, ProfilingInitializerHook]

  /** `cobra.OnFinalize(ProfilingFinalizer)`. */
  const FinalizeHooks: seq<Hook> := [ProfilingFinalizerHook]

  /** `filepath.Join(dir, name)`, left uninterpreted. */
  datatype Path = Join(dir: string, name: string)

  /** An `*os.File` opened on a path. */
  datatype File = File(path: Path)

  function CpuProfilePath(dir: string): Path {
    Join(dir, "profile_cpu.pb.gz")
  }

  function HeapProfilePath(dir: string): Path {
    Join(dir, "profile_heap.pb.gz")
  }

  /** The outcome of a call that returns an `error`. */
  datatype IoResult = Ok | Failed(err: string)

  /** The observable effects of the bootstrap, in the order they happen. */
  datatype Event =
    | LoggerInstalled(level: Level, logger: Logger)  // ConfigureLogger took effect
    | ConfigDiscovery                                 // viper search set-up and ReadInConfig
    | DebugLog(msg: string)                           // log.Debug().Msg(msg)
    | CreateFile(path: Path)                          // os.Create
    | StartCpuProfile(file: File)                     // pprof.StartCPUProfile
    | StopCpuProfile                                  // pprof.StopCPUProfile
    | CloseFile(file: File)                           // (*os.File).Close, result discarded
    | RunGC                                           // runtime.GC
    | WriteHeapProfile(file: File)                    // pprof.WriteHeapProfile
    | CommandBody                                     // the dispatched subcommand runs
    | PrintLine(text: string)                         // fmt.Println

  /** What the outside world answers to the calls that can fail, for one run. */
  datatype World = World(
    configFile: Option<string>,   // ReadInConfig found this file, or failed
    cpuCreate: IoResult,          // os.Create of the CPU profile
    cpuStart: IoResult,           // pprof.StartCPUProfile
    commandErr: Option<string>,   // the error cobra's dispatch returns
    heapCreate: IoResult,         // os.Create of the heap profile
    heapWrite: IoResult)          // pprof.WriteHeapProfile

  /** The events of one step and how it ended. */
  datatype Step = Step(events: seq<Event>, status: Status)

  /** `e1` happens before `e2` in the trace `t`. */
  ghost predicate Precedes(t: seq<Event>, e1: Event, e2: Event) {
    exists i, j :: 0 <= i < j < |t| && t[i] == e1 && t[j] == e2
  }

  /** An event that touches the file system or the profiler. */
  predicate IsProfilingEvent(e: Event) {
    e.CreateFile? || e.StartCpuProfile? || e.StopCpuProfile? || e.CloseFile?
      || e.RunGC? || e.WriteHeapProfile?
  }

  /** `InitConfig`: configure the logger first, then discover configuration. */
  function InitConfigStep(o: Options, configFile: Option<string>): (s: Step)
    ensures ResolveLevel(o.debug, o.logLevel).None? ==>
      s == Step([], Fatal("invalid log level: " + o.logLevel, None))
    ensures ResolveLevel(o.debug, o.logLevel).Some? ==>
      && s.status == Continue
      && |s.events| >= 2
      && s.events[0] == LoggerInstalled(ResolveLevel(o.debug, o.logLevel).value, SetupLogger(o.color))
      && s.events[1] == ConfigDiscovery
      && forall e :: e in s.events ==> !IsProfilingEvent(e) && e != CommandBody
  {
    match ResolveLevel(o.debug, o.logLevel)
    case None => Step([], Fatal("invalid log level: " + o.logLevel, None))
    case Some(level) =>
      var found := match configFile
        case Some(path) => [DebugLog("Using config file:" + path)]
        case None => [];
      Step([LoggerInstalled(level, SetupLogger(o.color)), ConfigDiscovery] + found, Continue)
  }

  /** `ProfilingInitializer`. */
  function InitializerStep(dir: string, create: IoResult, start: IoResult): (s: Step)
    ensures dir == "" ==> s == Step([], Continue)
    ensures dir != "" ==> |s.events| >= 1 && s.events[0] == CreateFile(CpuProfilePath(dir))
    ensures create.Failed? ==> forall e :: e in s.events ==> !e.StartCpuProfile?
    ensures dir != "" && create.Failed? ==>
      s.status == Fatal("could not create CPU profile: ", Some(create.err))
    ensures dir != "" && create.Ok? ==>
      StartCpuProfile(File(CpuProfilePath(dir))) in s.events
    ensures dir != "" && create.Ok? && start.Failed? ==>
      s.status == Fatal("could not create CPU profile: ", Some(start.err))
    ensures s.status.Continue? <==> dir == "" || (create.Ok? && start.Ok?)
    ensures forall e :: e in s.events ==> e.CreateFile? || e.StartCpuProfile?
  {
    if dir == "" then Step([], Continue)
    else if create.Failed? then
      Step([CreateFile(CpuProfilePath(dir))], Fatal("could not create CPU profile: ", Some(create.err)))
    else
      var file := File(CpuProfilePath(dir));
      Step([CreateFile(file.path), StartCpuProfile(file)],
           if start.Ok? then Continue else Fatal("could not create CPU profile: ", Some(start.err)))
  }

  /** `ProfilingCPUFile` after `ProfilingInitializer`: unchanged when profiling
      is off, the new handle when `os.Create` succeeded and nil otherwise. */
  function CpuFileAfterInit(dir: string, cpuFile: Option<File>, create: IoResult): (f: Option<File>)
    ensures dir == "" ==> f == cpuFile
    ensures dir != "" ==> (f.Some? <==> create.Ok?)
    ensures dir != "" && f.Some? ==> f.value == File(CpuProfilePath(dir))
  {
    if dir == "" then cpuFile
    else if create.Ok? then Some(File(CpuProfilePath(dir)))
    else None
  }

  /** The only CPU file the process can hold is the one on its profile path. */
  predicate CpuFileOnPath(dir: string, cpuFile: Option<File>) {
    cpuFile.Some? ==> cpuFile.value == File(CpuProfilePath(dir))
  }

  /** `ProfilingFinalizer`. */
  function FinalizerStep(dir: string, cpuFile: Option<File>, heapCreate: IoResult, heapWrite: IoResult): (s: Step)
    requires CpuFileOnPath(dir, cpuFile)
    ensures dir == "" ==> s == Step([], Continue)
    ensures dir != "" ==> s.events != [] && s.events[0] == StopCpuProfile
    ensures s.status.Continue? <==> dir == "" || (heapCreate.Ok? && heapWrite.Ok?)
  {
    if dir == "" then Step([], Continue)
    else
      var heap := File(HeapProfilePath(dir));
      var prefix := [StopCpuProfile] + CpuClose(cpuFile) + [RunGC, CreateFile(heap.path)];
      if heapCreate.Failed? then
        Step(prefix, Fatal("could not write memory profile: ", Some(heapCreate.err)))
      else
        Step(prefix + [WriteHeapProfile(heap), CloseFile(heap)],
             if heapWrite.Ok? then Continue
             else Fatal("could not write memory profile: ", Some(heapWrite.err)))
  }

  /** The close of the CPU file, when one is held. */
  function CpuClose(cpuFile: Option<File>): (r: seq<Event>)
    ensures |r| <= 1 && (r != [] <==> cpuFile.Some?)
    ensures cpuFile.Some? ==> r == [CloseFile(cpuFile.value)]
  {
    if cpuFile.Some? then [CloseFile(cpuFile.value)] else []
  }

  /** The finalizer closes the CPU file exactly when one is held. */
  lemma FinalizerClosesCpuFile(dir: string, cpuFile: Option<File>, heapCreate: IoResult, heapWrite: IoResult)
    requires CpuFileOnPath(dir, cpuFile)
    ensures CloseFile(File(CpuProfilePath(dir))) in FinalizerStep(dir, cpuFile, heapCreate, heapWrite).events
      <==> dir != "" && cpuFile.Some?
  {
  }

  /** When the heap file cannot be created, nothing is written and nothing
      further is closed: the finalizer's last act is the failed `os.Create`. */
  lemma FinalizerHeapCreateFails(dir: string, cpuFile: Option<File>, heapWrite: IoResult, err: string)
    requires dir != "" && CpuFileOnPath(dir, cpuFile)
    ensures var s := FinalizerStep(dir, cpuFile, Failed(err), heapWrite);
      && s.status == Fatal("could not write memory profile: ", Some(err))
      && s.events[|s.events| - 1] == CreateFile(HeapProfilePath(dir))
      && forall i :: 0 <= i < |s.events| ==>
           !s.events[i].WriteHeapProfile? && s.events[i] != CloseFile(File(HeapProfilePath(dir)))
  {
  }

  /** Once the heap file is created it is closed exactly once, after the heap
      profile is written, whether or not writing succeeded; a failed write
      ends in `log.Fatal` only after that close. */
  lemma FinalizerClosesHeapOnce(dir: string, cpuFile: Option<File>, heapWrite: IoResult)
    requires dir != "" && CpuFileOnPath(dir, cpuFile)
    ensures var s := FinalizerStep(dir, cpuFile, Ok, heapWrite);
      var heap := File(HeapProfilePath(dir));
      && |s.events| >= 2
      && s.events[|s.events| - 2] == WriteHeapProfile(heap)
      && s.events[|s.events| - 1] == CloseFile(heap)
      && multiset(s.events)[CloseFile(heap)] == 1
      && (heapWrite.Failed? ==> s.status == Fatal("could not write memory profile: ", Some(heapWrite.err)))
  {
  }

  /** In the finalizer, CPU profiling stops before the CPU file is closed and
      the garbage collector runs before the heap file is created. */
  lemma FinalizerOrder(dir: string, cpuFile: Option<File>, heapCreate: IoResult, heapWrite: IoResult)
    requires dir != "" && CpuFileOnPath(dir, cpuFile)
    ensures cpuFile.Some? ==>
      Precedes(FinalizerStep(dir, cpuFile, heapCreate, heapWrite).events, StopCpuProfile, CloseFile(cpuFile.value))
    ensures Precedes(FinalizerStep(dir, cpuFile, heapCreate, heapWrite).events, RunGC, CreateFile(HeapProfilePath(dir)))
  {
    var t := FinalizerStep(dir, cpuFile, heapCreate, heapWrite).events;
    var k := |CpuClose(cpuFile)|;
    assert t[0] == StopCpuProfile;
    assert cpuFile.Some? ==> t[1] == CloseFile(cpuFile.value);
    assert t[k + 1] == RunGC && t[k + 2] == CreateFile(HeapProfilePath(dir));
  }

  /** How the process ends: `Execute` returns, `log.Fatal` terminates it, or
      `os.Exit(code)` is called. */
  datatype Termination = Returned | Died(status: Status) | Exited(code: int)

  /** A whole run: its events and how it ended. */
  datatype Run = Run(events: seq<Event>, end: Termination)

  /** cobra's initialization: the hooks of `InitHooks` in order, stopping at
      the first fatal one. */
  function InitPhase(o: Options, w: World): (s: Step)
    ensures s.status.Continue? <==>
      InitConfigStep(o, w.configFile).status.Continue? && InitializerStep(o.profilingDir, w.cpuCreate, w.cpuStart).status.Continue?
    ensures CommandBody !in s.events
  {
    var ic := InitConfigStep(o, w.configFile);
    if ic.status.Fatal? then ic
    else
      var pi := InitializerStep(o.profilingDir, w.cpuCreate, w.cpuStart);
      Step(ic.events + pi.events, pi.status)
  }

  /** `Execute`: cobra runs the init hooks in registration order, the
      subcommand, then the finalize hooks; a returned error is printed and
      the process exits with status -1. A fatal step ends everything. */
  function Lifecycle(o: Options, cpuFile: Option<File>, w: World): (r: Run)
    requires CpuFileOnPath(o.profilingDir, cpuFile)
    ensures ResolveLevel(o.debug, o.logLevel).None? ==>
      r == Run([], Died(Fatal("invalid log level: " + o.logLevel, None)))
    ensures r.end.Exited? ==> r.end.code == -1 && w.commandErr.Some?
    ensures r.end.Returned? ==> w.commandErr.None?
  {
    var ip := InitPhase(o, w);
    if ip.status.Fatal? then Run(ip.events, Died(ip.status))
    else
      var pf := FinalizerStep(o.profilingDir, CpuFileAfterInit(o.profilingDir, cpuFile, w.cpuCreate), w.heapCreate, w.heapWrite);
      var events := ip.events + [CommandBody] + pf.events;
      if pf.status.Fatal? then Run(events, Died(pf.status))
      else match w.commandErr
        case None => Run(events, Returned)
        case Some(err) => Run(events + [PrintLine(err)], Exited(-1))
  }

  /** The subcommand runs exactly when both init hooks continue. */
  lemma LifecycleRunsCommand(o: Options, cpuFile: Option<File>, w: World)
    requires CpuFileOnPath(o.profilingDir, cpuFile)
    ensures CommandBody in Lifecycle(o, cpuFile, w).events <==>
      && InitConfigStep(o, w.configFile).status.Continue?
      && InitializerStep(o.profilingDir, w.cpuCreate, w.cpuStart).status.Continue?
  {
  }

  /** The process exits with status -1 exactly when the subcommand ran, the
      finalizer completed and the subcommand returned an error; that error
      is then the last thing printed. */
  lemma LifecycleExitsOnError(o: Options, cpuFile: Option<File>, w: World)
    requires CpuFileOnPath(o.profilingDir, cpuFile)
    ensures var r := Lifecycle(o, cpuFile, w);
      r.end == Exited(-1) <==>
        && InitConfigStep(o, w.configFile).status.Continue?
        && InitializerStep(o.profilingDir, w.cpuCreate, w.cpuStart).status.Continue?
        && FinalizerStep(o.profilingDir, CpuFileAfterInit(o.profilingDir, cpuFile, w.cpuCreate),
                         w.heapCreate, w.heapWrite).status.Continue?
        && w.commandErr.Some?
    ensures var r := Lifecycle(o, cpuFile, w);
      r.end.Exited? ==> r.events != [] && r.events[|r.events| - 1] == PrintLine(w.commandErr.value)
  {
  }

  /** Without a profiling directory nothing touches files or the profiler. */
  lemma NoProfilingWithoutDir(o: Options, cpuFile: Option<File>, w: World)
    requires o.profilingDir == "" && CpuFileOnPath(o.profilingDir, cpuFile)
    ensures forall e :: e in Lifecycle(o, cpuFile, w).events ==> !IsProfilingEvent(e)
  {
  }

  /** With a profiling directory, whenever the subcommand runs, CPU profiling
      was started before it and is stopped after it. */
  lemma ProfilingBracketsCommand(o: Options, cpuFile: Option<File>, w: World)
    requires CpuFileOnPath(o.profilingDir, cpuFile)
    requires o.profilingDir != "" && CommandBody in Lifecycle(o, cpuFile, w).events
    ensures Precedes(Lifecycle(o, cpuFile, w).events, StartCpuProfile(File(CpuProfilePath(o.profilingDir))), CommandBody)
    ensures Precedes(Lifecycle(o, cpuFile, w).events, CommandBody, StopCpuProfile)
  {
    var ic := InitConfigStep(o, w.configFile);
    var ip := InitPhase(o, w);
    var t := Lifecycle(o, cpuFile, w).events;
    var n := |ic.events|;
    assert ip.status.Continue?;
    assert ip.events == ic.events + [CreateFile(CpuProfilePath(o.profilingDir)), StartCpuProfile(File(CpuProfilePath(o.profilingDir)))];
    assert t[n + 1] == StartCpuProfile(File(CpuProfilePath(o.profilingDir)));
    assert t[n + 2] == CommandBody;
    assert t[n + 3] == StopCpuProfile;
  }

  /** Every profiling step and the subcommand come after the logger is
      configured and configuration discovery has run, which happen only for
      a valid level. */
  lemma LoggerFirst(o: Options, cpuFile: Option<File>, w: World, i: nat)
    requires CpuFileOnPath(o.profilingDir, cpuFile)
    requires i < |Lifecycle(o, cpuFile, w).events|
    requires IsProfilingEvent(Lifecycle(o, cpuFile, w).events[i]) || Lifecycle(o, cpuFile, w).events[i] == CommandBody
    ensures ResolveLevel(o.debug, o.logLevel).Some? && 2 <= i
    ensures Lifecycle(o, cpuFile, w).events[0] == LoggerInstalled(ResolveLevel(o.debug, o.logLevel).value, SetupLogger(o.color))
    ensures Lifecycle(o, cpuFile, w).events[1] == ConfigDiscovery
  {
  }

  /** The step a registered hook takes. */
  function HookStep(h: Hook, o: Options, cpuFile: Option<File>, w: World): Step
    requires CpuFileOnPath(o.profilingDir, cpuFile)
  {
    match h
    case InitConfigHook => InitConfigStep(o, w.configFile)
    case ProfilingInitializerHook => InitializerStep(o.profilingDir, w.cpuCreate, w.cpuStart)
    case ProfilingFinalizerHook => FinalizerStep(o.profilingDir, cpuFile, w.heapCreate, w.heapWrite)
  }

  /** `ProfilingCPUFile` after a registered hook: only the initializer sets it. */
  function HookCpuFile(h: Hook, o: Options, cpuFile: Option<File>, w: World): Option<File> {
    if h == ProfilingInitializerHook then CpuFileAfterInit(o.profilingDir, cpuFile, w.cpuCreate) else cpuFile
  }

  /** cobra's way of running a list of registered hooks: in order, each
      seeing the CPU handle the previous ones left, stopping at the first
      fatal one. */
  function RunHooks(hooks: seq<Hook>, o: Options, cpuFile: Option<File>, w: World): Step
    requires CpuFileOnPath(o.profilingDir, cpuFile)
    decreases |hooks|
  {
    if hooks == [] then Step([], Continue)
    else
      var s := HookStep(hooks[0], o, cpuFile, w);
      if s.status.Fatal? then s
      else
        var rest := RunHooks(hooks[1..], o, HookCpuFile(hooks[0], o, cpuFile, w), w);
        Step(s.events + rest.events, rest.status)
  }

  /** The registered hook lists are what `Lifecycle` runs: `InitHooks` is the
      init phase and `FinalizeHooks` the finalizer. */
  lemma RegisteredHooks(o: Options, cpuFile: Option<File>, w: World)
    requires CpuFileOnPath(o.profilingDir, cpuFile)
    ensures RunHooks(InitHooks, o, cpuFile, w) == InitPhase(o, w)
    ensures var f := CpuFileAfterInit(o.profilingDir, cpuFile, w.cpuCreate);
      RunHooks(FinalizeHooks, o, f, w) == FinalizerStep(o.profilingDir, f, w.heapCreate, w.heapWrite)
  {
  }

  /** The whole process: `RootConfig` with zerolog's globals beside it, the
      version string and the trace of effects so far. */
  class Process {
    var options: Options         // RootConfig's flag-bound fields
    var cpuFile: Option<File>    // RootConfig.ProfilingCPUFile
    var version: string
    var trace: seq<Event>
    const log: LogState

    ghost predicate Valid()
      reads this
    {
      CpuFileOnPath(options.profilingDir, cpuFile)
    }

    /** Package initialisation: `init` binds the flags to their defaults;
        zerolog starts at `level0` with its initial logger. */
    constructor (level0: Level)
      ensures Valid()
      ensures options == DefaultOptions && cpuFile == None && version == "" && trace == []
      ensures fresh(log) && log.level == level0 && log.logger == InitialLogger
    {
      options := DefaultOptions;
      cpuFile := None;
      version := "";
      trace := [];
      log := new LogState(level0, InitialLogger);
    }

    /** cobra's flag parsing assigns the bound fields; it happens before any
        hook runs. */
    method ParseFlags(parsed: Options)
      requires Valid() && cpuFile.None?
      modifies this
      ensures Valid()
      ensures options == parsed && cpuFile == None && version == old(version) && trace == old(trace)
    {
      options := parsed;
    }

    /** `InitConfig`. */
    method InitConfig(configFile: Option<string>) returns (st: Status)
      requires Valid()
      modifies this, log
      ensures Valid()
      ensures st == InitConfigStep(options, configFile).status
      ensures trace == old(trace) + InitConfigStep(options, configFile).events
      ensures st.Continue? ==> log.level == ResolveLevel(options.debug, options.logLevel).value
      ensures st.Continue? ==> log.logger == SetupLogger(options.color)
      ensures st.Fatal? ==> log.level == old(log.level) && log.logger == old(log.logger)
      ensures options == old(options) && cpuFile == old(cpuFile) && version == old(version)
    {
      st := log.ConfigureLogger(options.debug, options.logLevel, options.color);
      if st.Fatal? {
        return;
      }
      trace := trace + [LoggerInstalled(log.level, log.logger)];
      trace := trace + [ConfigDiscovery];
      if configFile.Some? {
        trace := trace + [DebugLog("Using config file:" + configFile.value)];
      }
    }

    /** `ProfilingInitializer`. */
    method ProfilingInitializer(create: IoResult, start: IoResult) returns (st: Status)
      requires Valid()
      modifies this
      ensures Valid()
      ensures st == InitializerStep(options.profilingDir, create, start).status
      ensures trace == old(trace) + InitializerStep(options.profilingDir, create, start).events
      ensures cpuFile == CpuFileAfterInit(options.profilingDir, old(cpuFile), create)
      ensures options == old(options) && version == old(version)
    {
      st := Continue;
      if options.profilingDir != "" {
        var path := CpuProfilePath(options.profilingDir);
        trace := trace + [CreateFile(path)];
        cpuFile := if create.Ok? then Some(File(path)) else None;
        if create.Failed? {
          return Fatal("could not create CPU profile: ", Some(create.err));
        }
        trace := trace + [StartCpuProfile(cpuFile.value)];
        if start.Failed? {
          return Fatal("could not create CPU profile: ", Some(start.err));
        }
      }
    }

    /** `ProfilingFinalizer`. Close errors are discarded, so they are not inputs. */
    method ProfilingFinalizer(heapCreate: IoResult, heapWrite: IoResult) returns (st: Status)
      requires Valid()
      modifies this
      ensures options == old(options) && cpuFile == old(cpuFile) && version == old(version)
      ensures Valid()
      ensures st == FinalizerStep(options.profilingDir, cpuFile, heapCreate, heapWrite).status
      ensures trace == old(trace) + FinalizerStep(options.profilingDir, cpuFile, heapCreate, heapWrite).events
    {
      st := Continue;
      if options.profilingDir != "" {
        trace := trace + [StopCpuProfile];
        if cpuFile.Some? {
          trace := trace + [CloseFile(cpuFile.value)];
        }
        trace := trace + [RunGC];
        var heap := File(HeapProfilePath(options.profilingDir));
        trace := trace + [CreateFile(heap.path)];
        if heapCreate.Failed? {
          return Fatal("could not write memory profile: ", Some(heapCreate.err));
        }
        trace := trace + [WriteHeapProfile(heap)];
        if heapWrite.Failed? {
          trace := trace + [CloseFile(heap)];
          return Fatal("could not write memory profile: ", Some(heapWrite.err));
        }
        trace := trace + [CloseFile(heap)];
      }
    }

    /** Runs one registered hook. */
    method RunHook(h: Hook, w: World) returns (st: Status)
      requires Valid()
      modifies this, log
      ensures options == old(options) && version == old(version)
      ensures Valid()
      ensures st == HookStep(h, options, old(cpuFile), w).status
      ensures trace == old(trace) + HookStep(h, options, old(cpuFile), w).events
      ensures cpuFile == HookCpuFile(h, options, old(cpuFile), w)
      ensures h == InitConfigHook && st.Continue? ==>
        log.level == ResolveLevel(options.debug, options.logLevel).value && log.logger == SetupLogger(options.color)
      ensures h != InitConfigHook || st.Fatal? ==>
        log.level == old(log.level) && log.logger == old(log.logger)
    {
      match h
      case InitConfigHook => st := InitConfig(w.configFile);
      case ProfilingInitializerHook => st := ProfilingInitializer(w.cpuCreate, w.cpuStart);
      case ProfilingFinalizerHook => st := ProfilingFinalizer(w.heapCreate, w.heapWrite);
    }

    /** cobra's initialization: `InitHooks` in registration order, the second
        only when the first did not end the process. */
    method RunInitHooks(w: World) returns (st: Status)
      requires Valid()
      modifies this, log
      ensures options == old(options) && version == old(version)
      ensures Valid()
      ensures st == InitPhase(options, w).status
      ensures trace == old(trace) + InitPhase(options, w).events
      ensures cpuFile == if ResolveLevel(options.debug, options.logLevel).Some?
        then CpuFileAfterInit(options.profilingDir, old(cpuFile), w.cpuCreate) else old(cpuFile)
      ensures ResolveLevel(options.debug, options.logLevel).Some? ==>
        log.level == ResolveLevel(options.debug, options.logLevel).value && log.logger == SetupLogger(options.color)
      ensures ResolveLevel(options.debug, options.logLevel).None? ==>
        log.level == old(log.level) && log.logger == old(log.logger)
    {
      st := RunHook(InitHooks[0], w);
      if st.Continue? {
        st := RunHook(InitHooks[1], w);
      }
    }

    /** `Execute(ver)`: store the version, let cobra run the hooks around the
        subcommand, and exit with status -1 on a returned error. */
    method Execute(ver: string, w: World) returns (t: Termination)
      requires Valid()
      modifies this, log
      ensures options == old(options)
      ensures Valid()
      ensures version == ver
      ensures trace == old(trace) + Lifecycle(options, old(cpuFile), w).events
      ensures t == Lifecycle(options, old(cpuFile), w).end
      ensures cpuFile == if ResolveLevel(options.debug, options.logLevel).Some?
        then CpuFileAfterInit(options.profilingDir, old(cpuFile), w.cpuCreate) else old(cpuFile)
      ensures ResolveLevel(options.debug, options.logLevel).Some? ==>
        log.level == ResolveLevel(options.debug, options.logLevel).value && log.logger == SetupLogger(options.color)
      ensures ResolveLevel(options.debug, options.logLevel).None? ==>
        log.level == old(log.level) && log.logger == old(log.logger)
    {
      version := ver;
      ghost var c0, t0 := cpuFile, trace;
      ghost var r := Lifecycle(options, c0, w);
      var st := RunInitHooks(w);
      ghost var ip := InitPhase(options, w);
      if st.Fatal? {
        assert r == Run(ip.events, Died(st));
        return Died(st);
      }
      trace := trace + [CommandBody];
      st := RunHook(FinalizeHooks[0], w);
      ghost var pf := FinalizerStep(options.profilingDir, CpuFileAfterInit(options.profilingDir, c0, w.cpuCreate), w.heapCreate, w.heapWrite);
      assert trace == t0 + (ip.events + [CommandBody] + pf.events);
      if st.Fatal? {
        assert r == Run(ip.events + [CommandBody] + pf.events, Died(st));
        return Died(st);
      }
      if w.commandErr.Some? {
        trace := trace + [PrintLine(w.commandErr.value)];
        assert r == Run(ip.events + [CommandBody] + pf.events + [PrintLine(w.commandErr.value)], Exited(-1));
        return Exited(-1);
      }
      assert r == Run(ip.events + [CommandBody] + pf.events, Returned);
      t := Returned;
    }
  }
}
