/** What `LogStash::Runner#execute` does, as functions of the settings it reads and of what
    its collaborators (logger, file system, pipeline, agent, task, signals) do. The
    begin-body is `Attempt`; `Execute` adds the rescue arms and the ensure clause. The
    observable behaviour is a trace of effects and the exit. */
module Startup {
  import opened Wrappers
  import opened Catalog
  import opened Signals

  /** Cabin log levels the runner selects. */
  datatype Level = Error | Warn | Info | Debug

  datatype Shell = Pry | Irb

  /** The two exception classes `execute` rescues: Clamp::UsageError, and everything else. */
  datatype Failure = UsageError | RuntimeError

  /** What `show_version` prints beyond the Logstash version line. */
  datatype VersionReport = VersionReport(ruby: bool, java: bool, gems: bool)

  datatype TaskEnd = Completed(code: int) | Crashed

  /** What a call of `verbosity?` does. Neither runner.rb nor environment.rb defines it,
      and no option declares a `verbosity` attribute, so as written the call raises
      NoMethodError; a definition elsewhere would answer a level or nil. */
  datatype Verbosity = Undefined | Answers(level: Option<Level>)

  /** What the collaborators outside the core do on one run. */
  datatype Externals = Externals(
    logFileOpens: bool,        // File.new(path, "a") succeeds
    rubyTooOld: bool,          // RUBY_VERSION < "1.9.2"
    badJava: bool,             // JavaVersion.bad_java_version?
    directories: set<string>,  // the paths File.directory? accepts
    verbosity: Verbosity,      // what a call of `verbosity?` does
    jruby: bool,               // Environment.jruby?
    shellResult: int,          // what pry or IRB.start returns
    configFormats: bool,       // Config::Loader#format_config returns normally
    pipelineConstructs: bool,  // Pipeline.new(config_str) returns normally
    agentCreates: bool,        // create_agent returns normally
    pipelineRegisters: bool,   // register_pipeline returns normally
    taskSpawns: bool,          // Stud::Task.new returns normally
    signals: seq<Signal>,      // signals delivered while waiting on the agent task
    task: TaskEnd,             // how the agent task ends: its value, or the exception `wait` re-raises
    shutdownOk: bool)          // agent.shutdown returns normally

  /** The observable steps of a run, in order. */
  datatype Effect =
    | LevelSet(level: Level)
    | LogFileOpened
    | DebugConfigWarned
    | RequirementReported           // the Ruby or Java version message on stderr
    | ShutdownPolicySet(unsafe: bool)
    | VersionShown(report: VersionReport)
    | ShellStarted(shell: Shell)
    | SettingsLogged
    | ConfigurationOk
    | ConfigurationInvalid          // the fatal "invalid configuration" log of config-test mode
    | AgentCreated
    | PipelineRegistered
    | Trapped(signal: Signal)
    | TaskStarted
    | Reacted(reaction: Reaction)
    | AgentShutdown
    | UsageReported                 // "ERROR: ..." on stderr and the short help
    | FatalLogged                   // the `rescue => e` arm's fatal log; the INT handler's own
                                    // fatal log before `exit` is part of Reacted(ForcedExit)
    | Untrapped(signal: Signal)
    | LogFileClosed

  /** How the begin-body ends: a return value, an exception, or the SystemExit raised by
      `exit` in the INT handler (which neither rescue arm catches). */
  datatype Body = Returns(code: int) | Raises(failure: Failure) | Exits

  /** How `execute` ends: it returns a value, or the process exits from the INT handler
      with the status `exit` gives it. */
  datatype Exit = Returned(code: int) | Exited(status: int)

  /** The status of `exit` called without an argument: Kernel#exit defaults to true, which
      is status 0. */
  const DefaultExitStatus: int := 0

  /** The settings `execute` reads. */
  const RunnerKeys: set<string> := {
    "log.path", "quiet", "verbose", "debug", "debug.config", "pipeline.unsafe_shutdown",
    "plugin.paths", "version", "ruby_shell", "config.string", "config.path",
    "config.auto_reload", "config.test"
  }

  // ---------------------------------------------------------------------------------
  // configure_logging

  /** The level priority: quiet, then verbose, then debug, else warn. */
  function LogLevel(quiet: bool, verbose: bool, debug: bool): (level: Level)
    ensures level == Error <==> quiet
    ensures level == Info <==> !quiet && verbose
    ensures level == Debug <==> !quiet && !verbose && debug
    ensures level == Warn <==> !quiet && !verbose && !debug
  {
    if quiet then Error else if verbose then Info else if debug then Debug else Warn
  }

  /** The effects of configuring the logger. */
  predicate LoggingEffect(e: Effect)
  {
    e.LevelSet? || e == LogFileOpened || e == DebugConfigWarned
  }

  /** The effects before the version flag: the logger's and the shutdown policy. */
  predicate PreludeEffect(e: Effect)
  {
    LoggingEffect(e) || e.ShutdownPolicySet?
  }

  datatype LogSetup = LogSetup(level: Level, ok: bool, logOpen: bool, trace: seq<Effect>)

  function Logging(path: Value, quiet: bool, verbose: bool, debug: bool, debugConfig: bool, opens: bool): (l: LogSetup)
    ensures l.level == LogLevel(quiet, verbose, debug)
    ensures l.ok <==> !Truthy(path) || opens
    ensures l.logOpen <==> Truthy(path) && opens
    ensures LogFileOpened in l.trace <==> l.logOpen
  {
    var level := LogLevel(quiet, verbose, debug);
    if Truthy(path) && !opens then LogSetup(level, false, false, [LevelSet(level)])
    else
      LogSetup(level, true, Truthy(path),
        [LevelSet(level)]
        + (if Truthy(path) then [LogFileOpened] else [])
        + (if debugConfig && level != Debug then [DebugConfigWarned] else []))
  }

  /** The logger's trace starts with the level, holds nothing but logging effects, and
      warns about `--debug.config` exactly when logging succeeded without the debug level. */
  lemma LoggingTrace(path: Value, quiet: bool, verbose: bool, debug: bool, debugConfig: bool, opens: bool)
    ensures var l := Logging(path, quiet, verbose, debug, debugConfig, opens);
      && |l.trace| > 0 && l.trace[0] == LevelSet(l.level)
      && (DebugConfigWarned in l.trace <==> l.ok && debugConfig && l.level != Debug)
      && forall i :: 0 <= i < |l.trace| ==> LoggingEffect(l.trace[i])
  {
  }

  /** `--debug.config` warns unless the level ends up `debug`: without `--debug`, and also
      with it when `--quiet` or `--verbose` wins. */
  lemma DebugConfigWarning(path: Value, quiet: bool, verbose: bool, debug: bool, debugConfig: bool, opens: bool)
    requires !Truthy(path) || opens
    ensures DebugConfigWarned in Logging(path, quiet, verbose, debug, debugConfig, opens).trace
      <==> debugConfig && (quiet || verbose || !debug)
  {
  }

  // ---------------------------------------------------------------------------------
  // show_version and start_shell

  function VersionLines(verbosity: Option<Level>, debug: bool, verbose: bool, jruby: bool): (r: VersionReport)
    ensures r.ruby <==> verbosity == Some(Info) || verbosity == Some(Debug) || debug || verbose
    ensures r.java <==> r.ruby && jruby
    ensures r.gems <==> r.ruby && (verbosity == Some(Debug) || debug)
  {
    var detailed := verbosity == Some(Info) || verbosity == Some(Debug) || debug || verbose;
    VersionReport(detailed, detailed && jruby, detailed && (verbosity == Some(Debug) || debug))
  }

  /** The gem list needs debug verbosity or `--debug`; `--verbose` alone never shows it. */
  lemma GemsNeedDebug(verbosity: Option<Level>, debug: bool, verbose: bool, jruby: bool)
    ensures VersionLines(verbosity, debug, verbose, jruby).gems <==> verbosity == Some(Debug) || debug
    ensures VersionLines(verbosity, debug, verbose, jruby).gems ==> VersionLines(verbosity, debug, verbose, jruby).ruby
  {
  }

  function ShellFor(shell: Value): (r: Result<Shell, Failure>)
    ensures r == Ok(Pry) <==> shell == Str("pry")
    ensures r == Ok(Irb) <==> shell == Str("irb")
    ensures r.Err? ==> r.error == UsageError
  {
    if shell == Str("pry") then Ok(Pry)
    else if shell == Str("irb") then Ok(Irb)
    else Err(UsageError)
  }

  // ---------------------------------------------------------------------------------
  // configure_plugin_paths

  /** `Array(paths)`: nil is no path, a string is one path, a list is itself. Any other
      value becomes a one-element list whose element `File.directory?` raises on. */
  function PathsOf(paths: Value): Result<seq<string>, Failure>
  {
    match paths
    case Nil => Ok([])
    case Str(p) => Ok([p])
    case List(ps) => Ok(ps)
    case _ => Err(RuntimeError)
  }

  lemma SinglePathIsWrapped(path: string)
    ensures PathsOf(Str(path)) == PathsOf(List([path]))
    ensures PathsOf(Nil) == PathsOf(List([]))
  {
  }

  /** The paths the loop adds before it stops: the longest prefix made of directories. */
  function DirPrefix(paths: seq<string>, dirs: set<string>): (added: seq<string>)
    ensures added <= paths
    ensures forall i :: 0 <= i < |added| ==> added[i] in dirs
    ensures |added| < |paths| ==> paths[|added|] !in dirs
  {
    if paths == [] || paths[0] !in dirs then []
    else [paths[0]] + DirPrefix(paths[1..], dirs)
  }

  /** The three properties above determine the added prefix. */
  lemma DirPrefixUnique(paths: seq<string>, dirs: set<string>, q: seq<string>)
    requires q <= paths
    requires forall i :: 0 <= i < |q| ==> q[i] in dirs
    requires |q| < |paths| ==> paths[|q|] !in dirs
    ensures q == DirPrefix(paths, dirs)
  {
    var d := DirPrefix(paths, dirs);
  }

  // ---------------------------------------------------------------------------------
  // execute

  function Reactions(rs: seq<Reaction>): (effects: seq<Effect>)
    ensures |effects| == |rs|
    ensures forall i :: 0 <= i < |rs| ==> effects[i] == Reacted(rs[i])
  {
    if rs == [] then [] else Reactions(rs[..|rs| - 1]) + [Reacted(rs[|rs| - 1])]
  }

  datatype Attempted = Attempted(
    body: Body, trace: seq<Effect>, added: seq<string>, installed: set<Signal>, logOpen: bool,
    interruptedOnce: bool)

  /** `configure_logging` with the run's settings. */
  function LogOf(values: map<string, Value>, x: Externals): LogSetup
    requires RunnerKeys <= values.Keys
  {
    Logging(values["log.path"], Truthy(values["quiet"]), Truthy(values["verbose"]),
            Truthy(values["debug"]), Truthy(values["debug.config"]), x.logFileOpens)
  }

  /** The trace up to and including the shutdown policy. */
  function PreludeTrace(values: map<string, Value>, x: Externals): seq<Effect>
    requires RunnerKeys <= values.Keys
  {
    LogOf(values, x).trace + [ShutdownPolicySet(Truthy(values["pipeline.unsafe_shutdown"]))]
  }

  /** The begin-body of `execute`: configure logging, then the rest. */
  function Attempt(values: map<string, Value>, x: Externals, interruptedOnce: bool): Attempted
    requires RunnerKeys <= values.Keys
  {
    var log := LogOf(values, x);
    if !log.ok then Attempted(Raises(UsageError), log.trace, [], {}, log.logOpen, interruptedOnce)
    else Checked(values, x, interruptedOnce, log.trace, log.logOpen)
  }

  /** After logging: the Ruby and Java checks, the shutdown policy, the plugin paths, and
      on from the version flag. */
  function Checked(values: map<string, Value>, x: Externals, interruptedOnce: bool,
                   t: seq<Effect>, logOpen: bool): Attempted
    requires RunnerKeys <= values.Keys
  {
    if x.rubyTooOld || x.badJava then
      Attempted(Returns(1), t + [RequirementReported], [], {}, logOpen, interruptedOnce)
    else
      var t := t + [ShutdownPolicySet(Truthy(values["pipeline.unsafe_shutdown"]))];
      match PathsOf(values["plugin.paths"])
      case Err(f) => Attempted(Raises(f), t, [], {}, logOpen, interruptedOnce)
      case Ok(paths) =>
        var added := DirPrefix(paths, x.directories);
        if |added| < |paths| then Attempted(Raises(UsageError), t, added, {}, logOpen, interruptedOnce)
        else Dispatch(values, x, interruptedOnce, t, added, logOpen)
  }

  /** From the version flag to the config-test branch. */
  function Dispatch(values: map<string, Value>, x: Externals, interruptedOnce: bool,
                    t: seq<Effect>, added: seq<string>, logOpen: bool): Attempted
    requires RunnerKeys <= values.Keys
  {
    if Truthy(values["version"]) then
      match x.verbosity
      case Undefined =>
        // the Logstash version line is printed, then the gating condition raises
        Attempted(Raises(RuntimeError), t + [VersionShown(VersionReport(false, false, false))], added, {}, logOpen, interruptedOnce)
      case Answers(v) =>
        var report := VersionLines(v, Truthy(values["debug"]), Truthy(values["verbose"]), x.jruby);
        Attempted(Returns(0), t + [VersionShown(report)], added, {}, logOpen, interruptedOnce)
    else if Truthy(values["ruby_shell"]) then
      match ShellFor(values["ruby_shell"])
      case Ok(shell) => Attempted(Returns(x.shellResult), t + [ShellStarted(shell)], added, {}, logOpen, interruptedOnce)
      case Err(f) => Attempted(Raises(f), t, added, {}, logOpen, interruptedOnce)
    else Configured(values, x, interruptedOnce, t + [SettingsLogged], added, logOpen)
  }

  /** After the settings are logged: the configuration checks, then either the config test
      or the agent. */
  function Configured(values: map<string, Value>, x: Externals, interruptedOnce: bool,
                      t: seq<Effect>, added: seq<string>, logOpen: bool): Attempted
    requires RunnerKeys <= values.Keys
  {
    if values["config.string"] == Nil && values["config.path"] == Nil then
      Attempted(Raises(UsageError), t, added, {}, logOpen, interruptedOnce)
    else if Truthy(values["config.auto_reload"]) && values["config.path"] == Nil then
      Attempted(Raises(UsageError), t, added, {}, logOpen, interruptedOnce)
    else if Truthy(values["config.test"]) then
      if !x.configFormats then Attempted(Raises(RuntimeError), t, added, {}, logOpen, interruptedOnce)
      else if x.pipelineConstructs then Attempted(Returns(0), t + [ConfigurationOk], added, {}, logOpen, interruptedOnce)
      else Attempted(Returns(1), t + [ConfigurationInvalid], added, {}, logOpen, interruptedOnce)
    else Boot(x, interruptedOnce, t, added, logOpen)
  }

  /** Creating the agent, trapping the signals, running and awaiting the agent task, shutdown. */
  function Boot(x: Externals, interruptedOnce: bool, t: seq<Effect>, added: seq<string>, logOpen: bool): Attempted
  {
    if !x.agentCreates then Attempted(Raises(RuntimeError), t, added, {}, logOpen, interruptedOnce)
    else if !x.pipelineRegisters then
      Attempted(Raises(RuntimeError), t + [AgentCreated], added, {}, logOpen, interruptedOnce)
    else Launch(x, interruptedOnce, t + [AgentCreated, PipelineRegistered, Trapped(Int), Trapped(Term)], added, logOpen)
  }

  /** With INT and TERM trapped: start the agent task, trap HUP, and await it. */
  function Launch(x: Externals, interruptedOnce: bool, t: seq<Effect>, added: seq<string>, logOpen: bool): Attempted
  {
    if !x.taskSpawns then Attempted(Raises(RuntimeError), t, added, {Int, Term}, logOpen, interruptedOnce)
    else AwaitTask(x, interruptedOnce, t + [TaskStarted, Trapped(Hup)], added, logOpen)
  }

  /** Waiting on the agent task with all three traps installed, then shutting the agent down. The
      agent is not shut down when the wait re-raises the agent task's exception. */
  function AwaitTask(x: Externals, interruptedOnce: bool, t: seq<Effect>, added: seq<string>, logOpen: bool): Attempted
  {
    var r := Replay(interruptedOnce, x.signals);
    var t := t + Reactions(r.reactions);
    if r.exited then Attempted(Exits, t, added, {Int, Term, Hup}, logOpen, r.interruptedOnce)
    else
      match x.task
      case Crashed => Attempted(Raises(RuntimeError), t, added, {Int, Term, Hup}, logOpen, r.interruptedOnce)
      case Completed(code) =>
        Attempted(if x.shutdownOk then Returns(code) else Raises(RuntimeError),
                  t + [AgentShutdown], added, {Int, Term, Hup}, logOpen, r.interruptedOnce)
  }

  /** The process's end for a begin-body: its return value, 1 from either rescue arm, or the
      status of the INT handler's `exit`. */
  function ExitOf(body: Body): Exit
  {
    match body
    case Returns(code) => Returned(code)
    case Raises(_) => Returned(1)
    case Exits => Exited(DefaultExitStatus)
  }

  /** The rescue arms: a usage error prints the message and the short help, any other
      failure is logged as fatal, and a return or an exit passes through. */
  function Rescue(body: Body): (effects: seq<Effect>)
    ensures body == Raises(UsageError) ==> effects == [UsageReported]
    ensures body == Raises(RuntimeError) ==> effects == [FatalLogged]
    ensures !body.Raises? ==> effects == []
  {
    match body
    case Raises(UsageError) => [UsageReported]
    case Raises(RuntimeError) => [FatalLogged]
    case _ => []
  }

  /** The ensure clause: untrap INT, TERM and HUP where trapped, close the log file. */
  function Release(installed: set<Signal>, logOpen: bool): (effects: seq<Effect>)
    ensures forall e :: e in effects ==> e.Untrapped? || e == LogFileClosed
    ensures Untrapped(Int) in effects <==> Int in installed
    ensures Untrapped(Term) in effects <==> Term in installed
    ensures Untrapped(Hup) in effects <==> Hup in installed
    ensures LogFileClosed in effects <==> logOpen
  {
    (if Int in installed then [Untrapped(Int)] else [])
    + (if Term in installed then [Untrapped(Term)] else [])
    + (if Hup in installed then [Untrapped(Hup)] else [])
    + (if logOpen then [LogFileClosed] else [])
  }

  datatype Outcome = Outcome(exit: Exit, trace: seq<Effect>, added: seq<string>, interruptedOnce: bool)

  /** The rescue arms and the ensure clause around a finished begin-body. */
  function Finish(a: Attempted): Outcome
  {
    Outcome(ExitOf(a.body), a.trace + Rescue(a.body) + Release(a.installed, a.logOpen), a.added, a.interruptedOnce)
  }

  function Execute(values: map<string, Value>, x: Externals, interruptedOnce: bool): Outcome
    requires RunnerKeys <= values.Keys
  {
    Finish(Attempt(values, x, interruptedOnce))
  }

  // ---------------------------------------------------------------------------------
  // Stages of the start-up sequence

  /** Everything before the version flag succeeds: the log file (if any) opens, Ruby and
      Java are recent enough, and every plugin path is a directory. */
  predicate PreludePasses(values: map<string, Value>, x: Externals)
    requires RunnerKeys <= values.Keys
  {
    && (!Truthy(values["log.path"]) || x.logFileOpens)
    && !x.rubyTooOld && !x.badJava
    && PathsOf(values["plugin.paths"]).Ok?
    && DirPrefix(PathsOf(values["plugin.paths"]).value, x.directories) == PathsOf(values["plugin.paths"]).value
  }

  /** The run gets past the version flag and the shell branch. */
  predicate ReachesConfigChecks(values: map<string, Value>, x: Externals)
    requires RunnerKeys <= values.Keys
  {
    PreludePasses(values, x) && !Truthy(values["version"]) && !Truthy(values["ruby_shell"])
  }

  /** A configuration is given, and auto-reload has a path to reload. */
  predicate ConfigurationGiven(values: map<string, Value>)
    requires RunnerKeys <= values.Keys
  {
    && !(values["config.string"] == Nil && values["config.path"] == Nil)
    && !(Truthy(values["config.auto_reload"]) && values["config.path"] == Nil)
  }

  predicate ReachesAgent(values: map<string, Value>, x: Externals)
    requires RunnerKeys <= values.Keys
  {
    ReachesConfigChecks(values, x) && ConfigurationGiven(values) && !Truthy(values["config.test"])
  }

  predicate AgentStarts(x: Externals)
  {
    x.agentCreates && x.pipelineRegisters && x.taskSpawns
  }

  // ---------------------------------------------------------------------------------
  // Properties of execute

  /** A trace with nothing the rescue arms or the ensure clause add. */
  predicate Unreleased(t: seq<Effect>)
  {
    forall i :: 0 <= i < |t| ==>
      !t[i].Untrapped? && t[i] != LogFileClosed && t[i] != UsageReported && t[i] != FatalLogged
  }

  predicate NoTraps(t: seq<Effect>)
  {
    forall i :: 0 <= i < |t| ==> !t[i].Trapped?
  }

  /** The begin-body reports exactly the traps it installed and whether it opened the log. */
  predicate TrapsMatch(a: Attempted)
  {
    && Unreleased(a.trace)
    && (Int in a.installed <==> Trapped(Int) in a.trace)
    && (Term in a.installed <==> Trapped(Term) in a.trace)
    && (Hup in a.installed <==> Trapped(Hup) in a.trace)
    && (a.logOpen <==> LogFileOpened in a.trace)
  }

  lemma ConcatPlain(a: seq<Effect>, b: seq<Effect>)
    requires Unreleased(a) && Unreleased(b)
    ensures Unreleased(a + b)
  {
  }

  lemma ReactionsPlain(rs: seq<Reaction>)
    ensures Unreleased(Reactions(rs)) && NoTraps(Reactions(rs))
    ensures LogFileOpened !in Reactions(rs) && AgentShutdown !in Reactions(rs)
  {
  }

  /** A body that ended before trapping anything reports no trap. */
  lemma UntrappedMatch(a: Attempted)
    requires a.installed == {} && Unreleased(a.trace) && NoTraps(a.trace)
    requires a.logOpen <==> LogFileOpened in a.trace
    ensures TrapsMatch(a)
  {
  }

  /** One more effect that is neither a trap, a release nor the log file keeps a trace
      plain. */
  lemma PlainStep(t: seq<Effect>, e: Effect)
    requires Unreleased(t) && NoTraps(t)
    requires !e.Trapped? && !e.Untrapped? && e != LogFileClosed && e != UsageReported && e != FatalLogged
    requires e != LogFileOpened
    ensures Unreleased(t + [e]) && NoTraps(t + [e])
    ensures LogFileOpened in t + [e] <==> LogFileOpened in t
  {
  }

  lemma AwaitTraps(x: Externals, interruptedOnce: bool, t: seq<Effect>, added: seq<string>, logOpen: bool)
    requires Unreleased(t) && (logOpen <==> LogFileOpened in t)
    requires Trapped(Int) in t && Trapped(Term) in t && Trapped(Hup) in t
    ensures TrapsMatch(AwaitTask(x, interruptedOnce, t, added, logOpen))
  {
    var r := Replay(interruptedOnce, x.signals);
    ReactionsPlain(r.reactions);
    var t1 := t + Reactions(r.reactions);
    KeepsTraps(t, Reactions(r.reactions));
    var a := AwaitTask(x, interruptedOnce, t, added, logOpen);
    if r.exited || x.task.Crashed? {
      assert a.trace == t1;
    } else {
      KeepsTraps(t1, [AgentShutdown]);
      assert a.trace == t1 + [AgentShutdown];
    }
    AllTrapped(a);
  }

  /** Appending effects without traps, releases or the log file keeps what a trace says
      about traps and the log file. */
  lemma KeepsTraps(t: seq<Effect>, u: seq<Effect>)
    requires Unreleased(t) && Unreleased(u) && NoTraps(u) && LogFileOpened !in u
    ensures Unreleased(t + u)
    ensures LogFileOpened in t + u <==> LogFileOpened in t
    ensures Trapped(Int) in t + u <==> Trapped(Int) in t
    ensures Trapped(Term) in t + u <==> Trapped(Term) in t
    ensures Trapped(Hup) in t + u <==> Trapped(Hup) in t
  {
  }

  /** A body that ended with all three traps in place reports all three. */
  lemma AllTrapped(a: Attempted)
    requires a.installed == {Int, Term, Hup} && Unreleased(a.trace)
    requires Trapped(Int) in a.trace && Trapped(Term) in a.trace && Trapped(Hup) in a.trace
    requires a.logOpen <==> LogFileOpened in a.trace
    ensures TrapsMatch(a)
  {
  }

  lemma LaunchTraps(x: Externals, interruptedOnce: bool, t: seq<Effect>, added: seq<string>, logOpen: bool)
    requires Unreleased(t) && (logOpen <==> LogFileOpened in t)
    requires Trapped(Int) in t && Trapped(Term) in t && Trapped(Hup) !in t
    ensures TrapsMatch(Launch(x, interruptedOnce, t, added, logOpen))
  {
    if x.taskSpawns {
      ConcatPlain(t, [TaskStarted, Trapped(Hup)]);
      AwaitTraps(x, interruptedOnce, t + [TaskStarted, Trapped(Hup)], added, logOpen);
    }
  }

  lemma BootTraps(x: Externals, interruptedOnce: bool, t: seq<Effect>, added: seq<string>, logOpen: bool)
    requires Unreleased(t) && NoTraps(t) && (logOpen <==> LogFileOpened in t)
    ensures TrapsMatch(Boot(x, interruptedOnce, t, added, logOpen))
  {
    if !x.agentCreates {
      UntrappedMatch(Boot(x, interruptedOnce, t, added, logOpen));
    } else if !x.pipelineRegisters {
      PlainStep(t, AgentCreated);
      UntrappedMatch(Boot(x, interruptedOnce, t, added, logOpen));
    } else {
      var t1 := t + [AgentCreated, PipelineRegistered, Trapped(Int), Trapped(Term)];
      ConcatPlain(t, [AgentCreated, PipelineRegistered, Trapped(Int), Trapped(Term)]);
      assert Trapped(Hup) !in t1;
      LaunchTraps(x, interruptedOnce, t1, added, logOpen);
    }
  }

  lemma ConfiguredTraps(values: map<string, Value>, x: Externals, interruptedOnce: bool,
                        t: seq<Effect>, added: seq<string>, logOpen: bool)
    requires RunnerKeys <= values.Keys
    requires Unreleased(t) && NoTraps(t) && (logOpen <==> LogFileOpened in t)
    ensures TrapsMatch(Configured(values, x, interruptedOnce, t, added, logOpen))
  {
    var c := Configured(values, x, interruptedOnce, t, added, logOpen);
    if !ConfigurationGiven(values) || (Truthy(values["config.test"]) && !x.configFormats) {
      UntrappedMatch(c);
    } else if Truthy(values["config.test"]) {
      PlainStep(t, ConfigurationOk);
      PlainStep(t, ConfigurationInvalid);
      UntrappedMatch(c);
    } else {
      BootTraps(x, interruptedOnce, t, added, logOpen);
    }
  }

  lemma DispatchTraps(values: map<string, Value>, x: Externals, interruptedOnce: bool,
                      t: seq<Effect>, added: seq<string>, logOpen: bool)
    requires RunnerKeys <= values.Keys
    requires Unreleased(t) && NoTraps(t) && (logOpen <==> LogFileOpened in t)
    ensures TrapsMatch(Dispatch(values, x, interruptedOnce, t, added, logOpen))
  {
    var d := Dispatch(values, x, interruptedOnce, t, added, logOpen);
    if Truthy(values["version"]) {
      match x.verbosity
      case Undefined =>
        PlainStep(t, VersionShown(VersionReport(false, false, false)));
        UntrappedMatch(d);
      case Answers(v) =>
        PlainStep(t, VersionShown(VersionLines(v, Truthy(values["debug"]), Truthy(values["verbose"]), x.jruby)));
        UntrappedMatch(d);
    } else if Truthy(values["ruby_shell"]) {
      match ShellFor(values["ruby_shell"])
      case Ok(shell) =>
        PlainStep(t, ShellStarted(shell));
        UntrappedMatch(d);
      case Err(_) =>
        UntrappedMatch(d);
    } else {
      PlainStep(t, SettingsLogged);
      ConfiguredTraps(values, x, interruptedOnce, t + [SettingsLogged], added, logOpen);
    }
  }

  lemma CheckedTraps(values: map<string, Value>, x: Externals, interruptedOnce: bool, t: seq<Effect>, logOpen: bool)
    requires RunnerKeys <= values.Keys
    requires Unreleased(t) && NoTraps(t) && (logOpen <==> LogFileOpened in t)
    ensures TrapsMatch(Checked(values, x, interruptedOnce, t, logOpen))
  {
    var c := Checked(values, x, interruptedOnce, t, logOpen);
    if x.rubyTooOld || x.badJava {
      PlainStep(t, RequirementReported);
      UntrappedMatch(c);
    } else {
      var policy := ShutdownPolicySet(Truthy(values["pipeline.unsafe_shutdown"]));
      PlainStep(t, policy);
      match PathsOf(values["plugin.paths"])
      case Err(_) =>
        UntrappedMatch(c);
      case Ok(paths) =>
        var added := DirPrefix(paths, x.directories);
        if |added| < |paths| {
          UntrappedMatch(c);
        } else {
          DispatchTraps(values, x, interruptedOnce, t + [policy], added, logOpen);
        }
    }
  }

  /** The logger's trace holds no trap and no release, and records whether the log opened. */
  lemma LogPlain(values: map<string, Value>, x: Externals)
    requires RunnerKeys <= values.Keys
    ensures var log := LogOf(values, x);
      Unreleased(log.trace) && NoTraps(log.trace) && (log.logOpen <==> LogFileOpened in log.trace)
  {
    LoggingTrace(values["log.path"], Truthy(values["quiet"]), Truthy(values["verbose"]),
                 Truthy(values["debug"]), Truthy(values["debug.config"]), x.logFileOpens);
  }

  lemma AttemptTraps(values: map<string, Value>, x: Externals, interruptedOnce: bool)
    requires RunnerKeys <= values.Keys
    ensures TrapsMatch(Attempt(values, x, interruptedOnce))
  {
    var log := LogOf(values, x);
    LogPlain(values, x);
    if !log.ok {
      UntrappedMatch(Attempt(values, x, interruptedOnce));
    } else {
      CheckedTraps(values, x, interruptedOnce, log.trace, log.logOpen);
    }
  }

  lemma FinishReleases(a: Attempted)
    requires TrapsMatch(a)
    ensures var r := Finish(a);
      && (Untrapped(Int) in r.trace <==> Trapped(Int) in r.trace)
      && (Untrapped(Term) in r.trace <==> Trapped(Term) in r.trace)
      && (Untrapped(Hup) in r.trace <==> Trapped(Hup) in r.trace)
      && (LogFileClosed in r.trace <==> LogFileOpened in r.trace)
  {
    UnreleasedExcludes(a.trace);
    FinishUntraps(a, Int);
    FinishUntraps(a, Term);
    FinishUntraps(a, Hup);
    FinishCloses(a);
  }

  /** The finished run untraps a signal exactly when its body trapped it. */
  lemma FinishUntraps(a: Attempted, s: Signal)
    requires Untrapped(s) !in a.trace
    requires s in a.installed <==> Trapped(s) in a.trace
    ensures Untrapped(s) in Finish(a).trace <==> Trapped(s) in Finish(a).trace
  {
    InFinish(a, Untrapped(s));
    InFinish(a, Trapped(s));
  }

  /** The finished run closes the log file exactly when its body opened it. */
  lemma FinishCloses(a: Attempted)
    requires LogFileClosed !in a.trace
    requires a.logOpen <==> LogFileOpened in a.trace
    ensures LogFileClosed in Finish(a).trace <==> LogFileOpened in Finish(a).trace
  {
    InFinish(a, LogFileClosed);
    InFinish(a, LogFileOpened);
  }

  /** An effect of the finished run comes from the body, the rescue arms or the ensure clause. */
  lemma InFinish(a: Attempted, e: Effect)
    ensures e in Finish(a).trace <==> e in a.trace || e in Rescue(a.body) || e in Release(a.installed, a.logOpen)
  {
  }

  /** A trace without released effects holds none of the four the ensure clause adds. */
  lemma UnreleasedExcludes(t: seq<Effect>)
    requires Unreleased(t)
    ensures Untrapped(Int) !in t && Untrapped(Term) !in t && Untrapped(Hup) !in t && LogFileClosed !in t
  {
  }

  /** The ensure clause releases exactly the traps that were installed, and closes the log
      file exactly when it was opened, however the body ended. */
  lemma EnsureReleasesWhatWasInstalled(values: map<string, Value>, x: Externals, interruptedOnce: bool)
    requires RunnerKeys <= values.Keys
    ensures var r := Execute(values, x, interruptedOnce);
      && (Untrapped(Int) in r.trace <==> Trapped(Int) in r.trace)
      && (Untrapped(Term) in r.trace <==> Trapped(Term) in r.trace)
      && (Untrapped(Hup) in r.trace <==> Trapped(Hup) in r.trace)
      && (LogFileClosed in r.trace <==> LogFileOpened in r.trace)
  {
    AttemptTraps(values, x, interruptedOnce);
    FinishReleases(Attempt(values, x, interruptedOnce));
  }

  /** The rescue arms: a usage error and any other failure each end `execute` with 1, and
      the forced exit passes through both arms. */
  lemma RescueExitsOne(values: map<string, Value>, x: Externals, interruptedOnce: bool)
    requires RunnerKeys <= values.Keys
    ensures var r := Execute(values, x, interruptedOnce);
      && (UsageReported in r.trace ==> r.exit == Returned(1) && FatalLogged !in r.trace)
      && (FatalLogged in r.trace ==> r.exit == Returned(1) && UsageReported !in r.trace)
      && (r.exit.Exited? ==> UsageReported !in r.trace && FatalLogged !in r.trace)
  {
    var a := Attempt(values, x, interruptedOnce);
    AttemptTraps(values, x, interruptedOnce);
    var release := Release(a.installed, a.logOpen);
    assert Execute(values, x, interruptedOnce).trace == a.trace + Rescue(a.body) + release;
    assert UsageReported !in a.trace && FatalLogged !in a.trace;
    assert UsageReported !in release && FatalLogged !in release;
  }

  /** Once the checks before the version flag pass, the run continues at `Dispatch`. */
  lemma AfterPrelude(values: map<string, Value>, x: Externals, interruptedOnce: bool)
    requires RunnerKeys <= values.Keys
    requires PreludePasses(values, x)
    ensures Attempt(values, x, interruptedOnce)
      == Dispatch(values, x, interruptedOnce, PreludeTrace(values, x), PathsOf(values["plugin.paths"]).value, LogOf(values, x).logOpen)
    ensures forall e :: e in PreludeTrace(values, x) ==> PreludeEffect(e)
  {
  }

  /** What a trace made only of the logger's effects and the shutdown policy does not hold. */
  lemma PreludeExcludes(t: seq<Effect>)
    requires forall e :: e in t ==> PreludeEffect(e)
    ensures SettingsLogged !in t && ConfigurationOk !in t && ConfigurationInvalid !in t
    ensures UsageReported !in t && FatalLogged !in t && AgentCreated !in t && AgentShutdown !in t
    ensures TaskStarted !in t && Trapped(Int) !in t && Trapped(Term) !in t && Trapped(Hup) !in t
    ensures LogFileClosed !in t
  {
  }

  /** The rescue arms and the ensure clause after a body that installed no trap. */
  lemma FinishUntrapped(a: Attempted)
    requires a.installed == {}
    ensures var close := if a.logOpen then [LogFileClosed] else [];
      Finish(a).trace == match a.body
        case Raises(UsageError) => a.trace + [UsageReported] + close
        case Raises(RuntimeError) => a.trace + [FatalLogged] + close
        case _ => a.trace + close
  {
  }

  /** The same, after a body that installed all three traps. */
  lemma FinishTrapped(a: Attempted)
    requires a.installed == {Int, Term, Hup}
    ensures var release := [Untrapped(Int), Untrapped(Term), Untrapped(Hup)] + (if a.logOpen then [LogFileClosed] else []);
      Finish(a).trace == match a.body
        case Raises(UsageError) => a.trace + [UsageReported] + release
        case Raises(RuntimeError) => a.trace + [FatalLogged] + release
        case _ => a.trace + release
  {
  }

  /** The version branch of `Dispatch`. */
  lemma DispatchVersion(values: map<string, Value>, x: Externals, interruptedOnce: bool,
                        t: seq<Effect>, added: seq<string>, logOpen: bool)
    requires RunnerKeys <= values.Keys
    requires Truthy(values["version"])
    ensures var d := Dispatch(values, x, interruptedOnce, t, added, logOpen);
      match x.verbosity
      case Undefined =>
        d == Attempted(Raises(RuntimeError), t + [VersionShown(VersionReport(false, false, false))], added, {}, logOpen, interruptedOnce)
      case Answers(v) =>
        d == Attempted(Returns(0), t + [VersionShown(VersionLines(v, Truthy(values["debug"]), Truthy(values["verbose"]), x.jruby))],
                       added, {}, logOpen, interruptedOnce)
  {
  }

  /** The shell branch of `Dispatch`. */
  lemma DispatchShell(values: map<string, Value>, x: Externals, interruptedOnce: bool,
                      t: seq<Effect>, added: seq<string>, logOpen: bool)
    requires RunnerKeys <= values.Keys
    requires !Truthy(values["version"]) && Truthy(values["ruby_shell"])
    ensures var d := Dispatch(values, x, interruptedOnce, t, added, logOpen);
      match ShellFor(values["ruby_shell"])
      case Ok(shell) => d == Attempted(Returns(x.shellResult), t + [ShellStarted(shell)], added, {}, logOpen, interruptedOnce)
      case Err(f) => d == Attempted(Raises(f), t, added, {}, logOpen, interruptedOnce)
  {
  }

  /** The two configuration checks of `Dispatch`. */
  lemma DispatchUnconfigured(values: map<string, Value>, x: Externals, interruptedOnce: bool,
                             t: seq<Effect>, added: seq<string>, logOpen: bool)
    requires RunnerKeys <= values.Keys
    requires !Truthy(values["version"]) && !Truthy(values["ruby_shell"]) && !ConfigurationGiven(values)
    ensures Dispatch(values, x, interruptedOnce, t, added, logOpen)
      == Attempted(Raises(UsageError), t + [SettingsLogged], added, {}, logOpen, interruptedOnce)
  {
  }

  /** The config-test branch of `Dispatch`. */
  lemma DispatchConfigTest(values: map<string, Value>, x: Externals, interruptedOnce: bool,
                           t: seq<Effect>, added: seq<string>, logOpen: bool)
    requires RunnerKeys <= values.Keys
    requires !Truthy(values["version"]) && !Truthy(values["ruby_shell"]) && ConfigurationGiven(values)
    requires Truthy(values["config.test"])
    ensures Dispatch(values, x, interruptedOnce, t, added, logOpen)
      == Attempted(if !x.configFormats then Raises(RuntimeError) else if x.pipelineConstructs then Returns(0) else Returns(1),
                   t + [SettingsLogged] + (if !x.configFormats then [] else if x.pipelineConstructs then [ConfigurationOk] else [ConfigurationInvalid]),
                   added, {}, logOpen, interruptedOnce)
  {
  }

  /** With the version flag, once the checks before it pass, `execute` prints the version
      and returns 0 when `verbosity?` answers. As written it is not defined, so after the
      Logstash version line the call raises, the failure is logged as fatal and `execute`
      returns 1. Either way: no settings dump, no configuration check, no agent, no trap. */
  lemma VersionShortCircuit(values: map<string, Value>, x: Externals, interruptedOnce: bool)
    requires RunnerKeys <= values.Keys
    requires PreludePasses(values, x) && Truthy(values["version"])
    ensures var r := Execute(values, x, interruptedOnce);
      && (x.verbosity.Answers? ==>
            && r.exit == Returned(0) && FatalLogged !in r.trace
            && VersionShown(VersionLines(x.verbosity.level, Truthy(values["debug"]), Truthy(values["verbose"]), x.jruby)) in r.trace)
      && (x.verbosity.Undefined? ==>
            && r.exit == Returned(1) && FatalLogged in r.trace
            && VersionShown(VersionReport(false, false, false)) in r.trace)
      && SettingsLogged !in r.trace && ConfigurationOk !in r.trace && ConfigurationInvalid !in r.trace
      && UsageReported !in r.trace && AgentCreated !in r.trace
      && Trapped(Int) !in r.trace && Trapped(Term) !in r.trace && Trapped(Hup) !in r.trace
  {
    AfterPrelude(values, x, interruptedOnce);
    VersionOutcome(values, x, interruptedOnce, PreludeTrace(values, x), PathsOf(values["plugin.paths"]).value, LogOf(values, x).logOpen);
  }

  /** The version branch after any prelude trace. */
  lemma VersionOutcome(values: map<string, Value>, x: Externals, interruptedOnce: bool,
                       t: seq<Effect>, added: seq<string>, logOpen: bool)
    requires RunnerKeys <= values.Keys
    requires forall e :: e in t ==> PreludeEffect(e)
    requires Truthy(values["version"])
    ensures var r := Finish(Dispatch(values, x, interruptedOnce, t, added, logOpen));
      && (x.verbosity.Answers? ==>
            && r.exit == Returned(0) && FatalLogged !in r.trace
            && VersionShown(VersionLines(x.verbosity.level, Truthy(values["debug"]), Truthy(values["verbose"]), x.jruby)) in r.trace)
      && (x.verbosity.Undefined? ==>
            && r.exit == Returned(1) && FatalLogged in r.trace
            && VersionShown(VersionReport(false, false, false)) in r.trace)
      && SettingsLogged !in r.trace && ConfigurationOk !in r.trace && ConfigurationInvalid !in r.trace
      && UsageReported !in r.trace && AgentCreated !in r.trace
      && Trapped(Int) !in r.trace && Trapped(Term) !in r.trace && Trapped(Hup) !in r.trace
  {
    var a := Dispatch(values, x, interruptedOnce, t, added, logOpen);
    DispatchVersion(values, x, interruptedOnce, t, added, logOpen);
    match x.verbosity
    case Undefined => VersionFinish(a, t, VersionReport(false, false, false));
    case Answers(v) => VersionFinish(a, t, VersionLines(v, Truthy(values["debug"]), Truthy(values["verbose"]), x.jruby));
  }

  /** The rescue arms and the ensure clause after the version branch's body. */
  lemma VersionFinish(a: Attempted, t: seq<Effect>, report: VersionReport)
    requires forall e :: e in t ==> PreludeEffect(e)
    requires a.installed == {} && a.trace == t + [VersionShown(report)]
    requires a.body == Returns(0) || a.body == Raises(RuntimeError)
    ensures var r := Finish(a);
      && (a.body == Returns(0) ==> r.exit == Returned(0) && FatalLogged !in r.trace)
      && (a.body == Raises(RuntimeError) ==> r.exit == Returned(1) && FatalLogged in r.trace)
      && VersionShown(report) in r.trace
      && SettingsLogged !in r.trace && ConfigurationOk !in r.trace && ConfigurationInvalid !in r.trace
      && UsageReported !in r.trace && AgentCreated !in r.trace
      && Trapped(Int) !in r.trace && Trapped(Term) !in r.trace && Trapped(Hup) !in r.trace
  {
    PreludeExcludes(t);
    FinishUntrapped(a);
  }

  /** The shell branch: "pry" and "irb" start that shell and return what it returns; any
      other name, the empty one included, is a usage error. */
  lemma ShellDispatch(values: map<string, Value>, x: Externals, interruptedOnce: bool)
    requires RunnerKeys <= values.Keys
    requires PreludePasses(values, x) && !Truthy(values["version"]) && Truthy(values["ruby_shell"])
    ensures var r := Execute(values, x, interruptedOnce);
      && (values["ruby_shell"] == Str("pry") ==> r.exit == Returned(x.shellResult) && ShellStarted(Pry) in r.trace)
      && (values["ruby_shell"] == Str("irb") ==> r.exit == Returned(x.shellResult) && ShellStarted(Irb) in r.trace)
      && (values["ruby_shell"] !in {Str("pry"), Str("irb")} ==> r.exit == Returned(1) && UsageReported in r.trace)
      && AgentCreated !in r.trace
  {
    AfterPrelude(values, x, interruptedOnce);
    ShellOutcome(values, x, interruptedOnce, PreludeTrace(values, x), PathsOf(values["plugin.paths"]).value, LogOf(values, x).logOpen);
  }

  /** The shell branch after any prelude trace. */
  lemma ShellOutcome(values: map<string, Value>, x: Externals, interruptedOnce: bool,
                     t: seq<Effect>, added: seq<string>, logOpen: bool)
    requires RunnerKeys <= values.Keys
    requires forall e :: e in t ==> PreludeEffect(e)
    requires !Truthy(values["version"]) && Truthy(values["ruby_shell"])
    ensures var r := Finish(Dispatch(values, x, interruptedOnce, t, added, logOpen));
      && (values["ruby_shell"] == Str("pry") ==> r.exit == Returned(x.shellResult) && ShellStarted(Pry) in r.trace)
      && (values["ruby_shell"] == Str("irb") ==> r.exit == Returned(x.shellResult) && ShellStarted(Irb) in r.trace)
      && (values["ruby_shell"] !in {Str("pry"), Str("irb")} ==> r.exit == Returned(1) && UsageReported in r.trace)
      && AgentCreated !in r.trace
  {
    PreludeExcludes(t);
    DispatchShell(values, x, interruptedOnce, t, added, logOpen);
    FinishUntrapped(Dispatch(values, x, interruptedOnce, t, added, logOpen));
  }

  /** A usage error right after the settings were logged, from an arbitrary prelude trace. */
  lemma UnconfiguredOutcome(a: Attempted, t: seq<Effect>)
    requires forall e :: e in t ==> PreludeEffect(e)
    requires a.body == Raises(UsageError) && a.installed == {} && a.trace == t + [SettingsLogged]
    ensures var r := Finish(a);
      && r.exit == Returned(1) && UsageReported in r.trace && SettingsLogged in r.trace
      && FatalLogged !in r.trace && AgentCreated !in r.trace && Trapped(Int) !in r.trace
  {
    PreludeExcludes(t);
    FinishUntrapped(a);
  }

  /** Without `config.string` and `config.path`, or with auto-reload but no `config.path`
      to reload: a usage error, exit 1, no agent. The settings have been logged by then. */
  lemma ConfigurationRequired(values: map<string, Value>, x: Externals, interruptedOnce: bool)
    requires RunnerKeys <= values.Keys
    requires ReachesConfigChecks(values, x) && !ConfigurationGiven(values)
    ensures var r := Execute(values, x, interruptedOnce);
      && r.exit == Returned(1) && UsageReported in r.trace && SettingsLogged in r.trace
      && FatalLogged !in r.trace && AgentCreated !in r.trace && Trapped(Int) !in r.trace
  {
    AfterPrelude(values, x, interruptedOnce);
    var t := PreludeTrace(values, x);
    DispatchUnconfigured(values, x, interruptedOnce, t, PathsOf(values["plugin.paths"]).value, LogOf(values, x).logOpen);
    UnconfiguredOutcome(Attempt(values, x, interruptedOnce), t);
  }

  /** Config-test mode after an arbitrary prelude trace. */
  lemma ConfigTestOutcome(x: Externals, a: Attempted, t: seq<Effect>)
    requires forall e :: e in t ==> PreludeEffect(e)
    requires a.installed == {}
    requires a.body == (if !x.configFormats then Raises(RuntimeError) else if x.pipelineConstructs then Returns(0) else Returns(1))
    requires a.trace == t + [SettingsLogged] + (if !x.configFormats then [] else if x.pipelineConstructs then [ConfigurationOk] else [ConfigurationInvalid])
    ensures var r := Finish(a);
      && r.exit == Returned(if x.configFormats && x.pipelineConstructs then 0 else 1)
      && (ConfigurationOk in r.trace <==> r.exit == Returned(0))
      && (ConfigurationInvalid in r.trace <==> x.configFormats && !x.pipelineConstructs)
      && AgentCreated !in r.trace && Trapped(Int) !in r.trace
  {
    PreludeExcludes(t);
    FinishUntrapped(a);
  }

  /** Config-test mode: 0 when the configuration formats and the pipeline constructs, 1
      otherwise; the agent is never created and no signal is trapped. */
  lemma ConfigTestExit(values: map<string, Value>, x: Externals, interruptedOnce: bool)
    requires RunnerKeys <= values.Keys
    requires ReachesConfigChecks(values, x) && ConfigurationGiven(values) && Truthy(values["config.test"])
    ensures var r := Execute(values, x, interruptedOnce);
      && r.exit == Returned(if x.configFormats && x.pipelineConstructs then 0 else 1)
      && (ConfigurationOk in r.trace <==> r.exit == Returned(0))
      && (ConfigurationInvalid in r.trace <==> x.configFormats && !x.pipelineConstructs)
      && AgentCreated !in r.trace && Trapped(Int) !in r.trace
  {
    AfterPrelude(values, x, interruptedOnce);
    var t := PreludeTrace(values, x);
    DispatchConfigTest(values, x, interruptedOnce, t, PathsOf(values["plugin.paths"]).value, LogOf(values, x).logOpen);
    ConfigTestOutcome(x, Attempt(values, x, interruptedOnce), t);
  }

  /** Past the configuration checks, outside config-test mode, `Dispatch` boots the agent. */
  lemma DispatchBoots(values: map<string, Value>, x: Externals, interruptedOnce: bool,
                      t: seq<Effect>, added: seq<string>, logOpen: bool)
    requires RunnerKeys <= values.Keys
    requires !Truthy(values["version"]) && !Truthy(values["ruby_shell"]) && ConfigurationGiven(values)
    requires !Truthy(values["config.test"])
    ensures Dispatch(values, x, interruptedOnce, t, added, logOpen) == Boot(x, interruptedOnce, t + [SettingsLogged], added, logOpen)
  {
  }

  /** When the agent, the pipeline and the agent task all start, `Boot` goes on to await the agent task. */
  lemma BootAwaits(x: Externals, interruptedOnce: bool, t: seq<Effect>, added: seq<string>, logOpen: bool)
    requires AgentStarts(x)
    ensures Boot(x, interruptedOnce, t, added, logOpen)
      == AwaitTask(x, interruptedOnce, t + [AgentCreated, PipelineRegistered, Trapped(Int), Trapped(Term)] + [TaskStarted, Trapped(Hup)], added, logOpen)
  {
  }

  /** The first effects of a run that reaches the agent task, up to the HUP trap. */
  function Started(values: map<string, Value>, x: Externals): seq<Effect>
    requires RunnerKeys <= values.Keys
  {
    PreludeTrace(values, x) + [SettingsLogged] + [AgentCreated, PipelineRegistered, Trapped(Int), Trapped(Term)] + [TaskStarted, Trapped(Hup)]
  }

  lemma ReachesTask(values: map<string, Value>, x: Externals, interruptedOnce: bool)
    requires RunnerKeys <= values.Keys
    requires ReachesAgent(values, x) && AgentStarts(x)
    ensures Attempt(values, x, interruptedOnce)
      == AwaitTask(x, interruptedOnce, Started(values, x), PathsOf(values["plugin.paths"]).value, LogOf(values, x).logOpen)
    ensures AgentCreated in Started(values, x) && TaskStarted in Started(values, x)
    ensures AgentShutdown !in Started(values, x)
    ensures LogOf(values, x).logOpen <==> Truthy(values["log.path"])
  {
    AfterPrelude(values, x, interruptedOnce);
    var t := PreludeTrace(values, x);
    PreludeExcludes(t);
    DispatchBoots(values, x, interruptedOnce, t, PathsOf(values["plugin.paths"]).value, LogOf(values, x).logOpen);
    BootAwaits(x, interruptedOnce, t + [SettingsLogged], PathsOf(values["plugin.paths"]).value, LogOf(values, x).logOpen);
  }

  lemma CompletedOutcome(a: Attempted, t: seq<Effect>, code: int)
    requires a.body == Returns(code) && a.installed == {Int, Term, Hup}
    requires a.trace == t + [AgentShutdown]
    requires AgentCreated in t && TaskStarted in t
    ensures var r := Finish(a);
      var tail := [AgentShutdown, Untrapped(Int), Untrapped(Term), Untrapped(Hup)] + (if a.logOpen then [LogFileClosed] else []);
      && r.exit == Returned(code)
      && AgentCreated in r.trace && TaskStarted in r.trace
      && |tail| <= |r.trace| && r.trace[|r.trace| - |tail|..] == tail
  {
    FinishTrapped(a);
    var tail := [AgentShutdown, Untrapped(Int), Untrapped(Term), Untrapped(Hup)] + (if a.logOpen then [LogFileClosed] else []);
    assert Finish(a).trace == t + tail;
  }

  /** The normal path: the agent task runs to completion, the agent is shut down after it, and
      `execute` returns the agent task's value unchanged, then releases the three traps. */
  lemma NormalPathReturnsTaskResult(values: map<string, Value>, x: Externals, interruptedOnce: bool, code: int)
    requires RunnerKeys <= values.Keys
    requires ReachesAgent(values, x) && AgentStarts(x)
    requires !Replay(interruptedOnce, x.signals).exited
    requires x.task == Completed(code) && x.shutdownOk
    ensures var r := Execute(values, x, interruptedOnce);
      var tail := [AgentShutdown, Untrapped(Int), Untrapped(Term), Untrapped(Hup)]
                  + (if Truthy(values["log.path"]) then [LogFileClosed] else []);
      && r.exit == Returned(code)
      && AgentCreated in r.trace && TaskStarted in r.trace
      && |tail| <= |r.trace| && r.trace[|r.trace| - |tail|..] == tail
  {
    ReachesTask(values, x, interruptedOnce);
    AwaitedCompletion(x, interruptedOnce, Started(values, x), PathsOf(values["plugin.paths"]).value, LogOf(values, x).logOpen, code);
  }

  /** The same property, for the wait after any trace that created the agent and the agent task. */
  lemma AwaitedCompletion(x: Externals, interruptedOnce: bool, t: seq<Effect>, added: seq<string>, logOpen: bool, code: int)
    requires !Replay(interruptedOnce, x.signals).exited
    requires x.task == Completed(code) && x.shutdownOk
    requires AgentCreated in t && TaskStarted in t
    ensures var r := Finish(AwaitTask(x, interruptedOnce, t, added, logOpen));
      var tail := [AgentShutdown, Untrapped(Int), Untrapped(Term), Untrapped(Hup)] + (if logOpen then [LogFileClosed] else []);
      && r.exit == Returned(code)
      && AgentCreated in r.trace && TaskStarted in r.trace
      && |tail| <= |r.trace| && r.trace[|r.trace| - |tail|..] == tail
  {
    var t1 := t + Reactions(Replay(interruptedOnce, x.signals).reactions);
    CompletedOutcome(AwaitTask(x, interruptedOnce, t, added, logOpen), t1, code);
  }

  /** The forced exit's reaction is the last of the reactions appended to `t`. */
  lemma LastReaction(t: seq<Effect>, rs: seq<Reaction>)
    requires |rs| > 0 && rs[|rs| - 1] == ForcedExit
    ensures Reacted(ForcedExit) in t + Reactions(rs)
  {
    assert (t + Reactions(rs))[|t| + |rs| - 1] == Reacted(ForcedExit);
  }

  /** The reactions never shut the agent down. */
  lemma ReactionsNoShutdown(t: seq<Effect>, rs: seq<Reaction>)
    requires AgentShutdown !in t
    ensures AgentShutdown !in t + Reactions(rs)
  {
    ReactionsPlain(rs);
  }

  lemma ExitedOutcome(a: Attempted, t: seq<Effect>, rs: seq<Reaction>)
    requires a.body == Exits && a.installed == {Int, Term, Hup}
    requires a.trace == t + Reactions(rs)
    requires AgentShutdown !in t
    requires |rs| > 0 && rs[|rs| - 1] == ForcedExit
    ensures Finish(a).exit == Exited(0)
    ensures AgentShutdown !in Finish(a).trace
    ensures Reacted(ForcedExit) in Finish(a).trace
    ensures Untrapped(Int) in Finish(a).trace && Untrapped(Term) in Finish(a).trace && Untrapped(Hup) in Finish(a).trace
  {
    LastReaction(t, rs);
    ReactionsNoShutdown(t, rs);
    InFinish(a, AgentShutdown);
    InFinish(a, Reacted(ForcedExit));
  }

  /** From a fresh runner waiting on its task: the process is forced out exactly when a
      second INT arrives, skipping the agent's shutdown but still releasing the traps;
      otherwise the flag ends up set exactly when one INT arrived. */
  lemma ForcedExitOnSecondInterrupt(values: map<string, Value>, x: Externals)
    requires RunnerKeys <= values.Keys
    requires ReachesAgent(values, x) && AgentStarts(x)
    ensures var r := Execute(values, x, false);
      && (r.exit == Exited(0) <==> Count(x.signals, Int) >= 2)
      && (r.exit == Exited(0) ==>
            && AgentShutdown !in r.trace && Reacted(ForcedExit) in r.trace
            && Untrapped(Int) in r.trace && Untrapped(Term) in r.trace && Untrapped(Hup) in r.trace)
      && (!r.exit.Exited? ==> r.interruptedOnce == (Count(x.signals, Int) == 1))
  {
    ReachesTask(values, x, false);
    AwaitedExit(x, Started(values, x), PathsOf(values["plugin.paths"]).value, LogOf(values, x).logOpen);
  }

  /** The same property, for the wait of a fresh runner after any trace without a shutdown. */
  lemma AwaitedExit(x: Externals, t: seq<Effect>, added: seq<string>, logOpen: bool)
    requires AgentShutdown !in t
    ensures var r := Finish(AwaitTask(x, false, t, added, logOpen));
      && (r.exit == Exited(0) <==> Count(x.signals, Int) >= 2)
      && (r.exit == Exited(0) ==>
            && AgentShutdown !in r.trace && Reacted(ForcedExit) in r.trace
            && Untrapped(Int) in r.trace && Untrapped(Term) in r.trace && Untrapped(Hup) in r.trace)
      && (!r.exit.Exited? ==> r.interruptedOnce == (Count(x.signals, Int) == 1))
  {
    Escalation(x.signals);
    var rp := Replay(false, x.signals);
    if rp.exited {
      ExitedOutcome(AwaitTask(x, false, t, added, logOpen), t, rp.reactions);
    }
  }

  /** A log file that cannot be opened is a usage error before anything else happens. */
  lemma LogFileFailure(values: map<string, Value>, x: Externals, interruptedOnce: bool)
    requires RunnerKeys <= values.Keys
    requires Truthy(values["log.path"]) && !x.logFileOpens
    ensures var r := Execute(values, x, interruptedOnce);
      && r.exit == Returned(1)
      && r.trace == [LevelSet(LogLevel(Truthy(values["quiet"]), Truthy(values["verbose"]), Truthy(values["debug"]))), UsageReported]
  {
    FinishUntrapped(Attempt(values, x, interruptedOnce));
  }

  /** Too old a Ruby or a bad Java: exit 1 right after logging is configured. */
  lemma RequirementsExitOne(values: map<string, Value>, x: Externals, interruptedOnce: bool)
    requires RunnerKeys <= values.Keys
    requires !Truthy(values["log.path"]) || x.logFileOpens
    requires x.rubyTooOld || x.badJava
    ensures var r := Execute(values, x, interruptedOnce);
      && r.exit == Returned(1)
      && r.trace == LogOf(values, x).trace + [RequirementReported] + (if Truthy(values["log.path"]) then [LogFileClosed] else [])
  {
    FinishUntrapped(Attempt(values, x, interruptedOnce));
  }

  /** The plugin paths: added in order as long as they are directories; the first one that
      is not is a usage error, with exactly the paths before it added and no agent. */
  lemma PluginPathsFailFast(values: map<string, Value>, x: Externals, interruptedOnce: bool)
    requires RunnerKeys <= values.Keys
    requires !Truthy(values["log.path"]) || x.logFileOpens
    requires !x.rubyTooOld && !x.badJava
    requires PathsOf(values["plugin.paths"]).Ok?
    ensures var r := Execute(values, x, interruptedOnce);
      var paths := PathsOf(values["plugin.paths"]).value;
      && r.added <= paths
      && (forall i :: 0 <= i < |r.added| ==> r.added[i] in x.directories)
      && (r.added != paths ==>
            && paths[|r.added|] !in x.directories
            && r.exit == Returned(1) && UsageReported in r.trace && AgentCreated !in r.trace)
  {
    var log := LogOf(values, x);
    CheckedAdds(values, x, interruptedOnce, log.trace, log.logOpen);
    var paths := PathsOf(values["plugin.paths"]).value;
    if |DirPrefix(paths, x.directories)| < |paths| {
      PreludeEffects(values, x);
      PathFailureOutcome(Attempt(values, x, interruptedOnce), PreludeTrace(values, x));
    }
  }

  /** Past the version checks, `Checked` adds the longest prefix of directories, and stops
      with a usage error right after the shutdown policy when a path is not a directory. */
  lemma CheckedAdds(values: map<string, Value>, x: Externals, interruptedOnce: bool, t: seq<Effect>, logOpen: bool)
    requires RunnerKeys <= values.Keys
    requires !x.rubyTooOld && !x.badJava && PathsOf(values["plugin.paths"]).Ok?
    ensures var paths := PathsOf(values["plugin.paths"]).value;
      var added := DirPrefix(paths, x.directories);
      var c := Checked(values, x, interruptedOnce, t, logOpen);
      && c.added == added
      && (|added| < |paths| ==>
            c == Attempted(Raises(UsageError), t + [ShutdownPolicySet(Truthy(values["pipeline.unsafe_shutdown"]))],
                           added, {}, logOpen, interruptedOnce))
  {
    var paths := PathsOf(values["plugin.paths"]).value;
    var added := DirPrefix(paths, x.directories);
    if |added| == |paths| {
      DispatchAdds(values, x, interruptedOnce, t + [ShutdownPolicySet(Truthy(values["pipeline.unsafe_shutdown"]))], added, logOpen);
    }
  }

  /** The trace before the version flag holds only the logger's effects and the policy. */
  lemma PreludeEffects(values: map<string, Value>, x: Externals)
    requires RunnerKeys <= values.Keys
    ensures forall e :: e in PreludeTrace(values, x) ==> PreludeEffect(e)
  {
    LoggingTrace(values["log.path"], Truthy(values["quiet"]), Truthy(values["verbose"]),
                 Truthy(values["debug"]), Truthy(values["debug.config"]), x.logFileOpens);
  }

  /** A usage error right after the prelude: exit 1, reported, and no agent. */
  lemma PathFailureOutcome(a: Attempted, t: seq<Effect>)
    requires forall e :: e in t ==> PreludeEffect(e)
    requires a.body == Raises(UsageError) && a.installed == {} && a.trace == t
    ensures Finish(a).exit == Returned(1) && UsageReported in Finish(a).trace && AgentCreated !in Finish(a).trace
  {
    PreludeExcludes(t);
    FinishUntrapped(a);
  }

  /** `Dispatch` never touches the plugin paths. */
  lemma DispatchAdds(values: map<string, Value>, x: Externals, interruptedOnce: bool,
                     t: seq<Effect>, added: seq<string>, logOpen: bool)
    requires RunnerKeys <= values.Keys
    ensures Dispatch(values, x, interruptedOnce, t, added, logOpen).added == added
    ensures Dispatch(values, x, interruptedOnce, t, added, logOpen).logOpen == logOpen
  {
    if !Truthy(values["version"]) && !Truthy(values["ruby_shell"]) {
      ConfiguredKeeps(values, x, interruptedOnce, t + [SettingsLogged], added, logOpen);
    }
  }

  lemma ConfiguredKeeps(values: map<string, Value>, x: Externals, interruptedOnce: bool,
                        t: seq<Effect>, added: seq<string>, logOpen: bool)
    requires RunnerKeys <= values.Keys
    ensures Configured(values, x, interruptedOnce, t, added, logOpen).added == added
    ensures Configured(values, x, interruptedOnce, t, added, logOpen).logOpen == logOpen
  {
    BootKeeps(x, interruptedOnce, t, added, logOpen);
  }

  lemma BootKeeps(x: Externals, interruptedOnce: bool, t: seq<Effect>, added: seq<string>, logOpen: bool)
    ensures Boot(x, interruptedOnce, t, added, logOpen).added == added
    ensures Boot(x, interruptedOnce, t, added, logOpen).logOpen == logOpen
  {
    LaunchKeeps(x, interruptedOnce, t + [AgentCreated, PipelineRegistered, Trapped(Int), Trapped(Term)], added, logOpen);
  }

  lemma LaunchKeeps(x: Externals, interruptedOnce: bool, t: seq<Effect>, added: seq<string>, logOpen: bool)
    ensures Launch(x, interruptedOnce, t, added, logOpen).added == added
    ensures Launch(x, interruptedOnce, t, added, logOpen).logOpen == logOpen
  {
  }

  /** Past logging, the begin-body keeps the log file as logging left it. */
  lemma CheckedKeepsLog(values: map<string, Value>, x: Externals, interruptedOnce: bool, t: seq<Effect>, logOpen: bool)
    requires RunnerKeys <= values.Keys
    ensures Checked(values, x, interruptedOnce, t, logOpen).logOpen == logOpen
  {
    match PathsOf(values["plugin.paths"])
    case Err(_) =>
    case Ok(paths) =>
      DispatchAdds(values, x, interruptedOnce, t + [ShutdownPolicySet(Truthy(values["pipeline.unsafe_shutdown"]))],
                   DirPrefix(paths, x.directories), logOpen);
  }

  // ---------------------------------------------------------------------------------
  // The registered defaults as the settings of a run

  /** Every setting `execute` reads is in the catalog, so the defaults alone are settings
      a run can read. */
  lemma CatalogCoversRunnerKeys(hostname: string, cpuCores: int)
    ensures RunnerKeys <= Defaults(Catalog.Catalog(hostname, cpuCores)).Keys
  {
    CatalogDefault(hostname, cpuCores, 2);
    CatalogDefault(hostname, cpuCores, 3);
    CatalogDefault(hostname, cpuCores, 4);
    CatalogDefault(hostname, cpuCores, 5);
    CatalogDefault(hostname, cpuCores, 13);
    CatalogDefault(hostname, cpuCores, 14);
    CatalogDefault(hostname, cpuCores, 15);
    CatalogDefault(hostname, cpuCores, 16);
    CatalogDefault(hostname, cpuCores, 17);
    CatalogDefault(hostname, cpuCores, 18);
    CatalogDefault(hostname, cpuCores, 19);
    CatalogDefault(hostname, cpuCores, 20);
    CatalogDefault(hostname, cpuCores, 22);
  }

  /** The defaults of the settings that decide where a run with no options stops. */
  lemma RunDefaults(hostname: string, cpuCores: int)
    ensures var d := Defaults(Catalog.Catalog(hostname, cpuCores));
      && RunnerKeys <= d.Keys
      && d["log.path"] == Nil && d["plugin.paths"] == List([]) && d["version"] == Bool(false)
      && d["ruby_shell"] == Nil && d["config.string"] == Nil && d["config.path"] == Nil
  {
    CatalogCoversRunnerKeys(hostname, cpuCores);
    CatalogDefault(hostname, cpuCores, 2);
    CatalogDefault(hostname, cpuCores, 3);
    CatalogDefault(hostname, cpuCores, 14);
    CatalogDefault(hostname, cpuCores, 15);
    CatalogDefault(hostname, cpuCores, 20);
    CatalogDefault(hostname, cpuCores, 22);
  }

  /** With nothing but the defaults, neither `config.string` nor `config.path` is set, so
      every run returns 1: a usage error once the Ruby and Java checks pass, and the
      requirement message otherwise. The agent is never created. */
  lemma DefaultsNeedConfiguration(hostname: string, cpuCores: int, x: Externals, interruptedOnce: bool)
    ensures RunnerKeys <= Defaults(Catalog.Catalog(hostname, cpuCores)).Keys
    ensures var r := Execute(Defaults(Catalog.Catalog(hostname, cpuCores)), x, interruptedOnce);
      && r.exit == Returned(1) && AgentCreated !in r.trace
      && (!x.rubyTooOld && !x.badJava ==> UsageReported in r.trace)
  {
    var d := Defaults(Catalog.Catalog(hostname, cpuCores));
    RunDefaults(hostname, cpuCores);
    if x.rubyTooOld || x.badJava {
      RequirementsExitOne(d, x, interruptedOnce);
      PreludeEffects(d, x);
      PreludeExcludes(LogOf(d, x).trace + [ShutdownPolicySet(Truthy(d["pipeline.unsafe_shutdown"]))]);
    } else {
      ConfigurationRequired(d, x, interruptedOnce);
    }
  }
}
