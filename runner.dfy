/** `LogStash::Runner` as an object: the `interrupted_once` flag the INT handler keeps,
    the log file it holds open, the interpreter's load path it extends, and the effects of
    the current `execute`. Each method follows the Ruby method step by step and is proved
    to do what the matching function of `Startup` says. */
module Runner {
  import opened Wrappers
  import opened Catalog
  import opened Signals
  import opened Startup
  import Environment

  /** Appending one more reaction appends one more effect. */
  lemma ReactionsSnoc(rs: seq<Reaction>, r: Reaction)
    ensures Reactions(rs + [r]) == Reactions(rs) + [Reacted(r)]
  {
    assert (rs + [r])[..|rs|] == rs;
  }

  /** Handling the signal at `i` after a prefix that did not exit extends the replay by
      that handler's reaction. */
  lemma ReplayNext(start: bool, signals: seq<Signal>, i: nat, before: seq<Effect>, trace: seq<Effect>,
                   interruptedOnce: bool, reaction: Reaction)
    requires i < |signals|
    requires !Replay(start, signals[..i]).exited
    requires Handled(interruptedOnce, reaction) == Handle(Replay(start, signals[..i]).interruptedOnce, signals[i])
    requires trace == before + Reactions(Replay(start, signals[..i]).reactions) + [Reacted(reaction)]
    ensures var r := Replay(start, signals[..i + 1]);
      && r.exited == (reaction == ForcedExit) && r.interruptedOnce == interruptedOnce
      && trace == before + Reactions(r.reactions)
  {
    var prev := Replay(start, signals[..i]);
    ReplayExtends(start, signals, i);
    ReactionsSnoc(prev.reactions, reaction);
    assert before + Reactions(prev.reactions) + [Reacted(reaction)] == before + (Reactions(prev.reactions) + [Reacted(reaction)]);
  }

  lemma ReplayExtends(start: bool, signals: seq<Signal>, i: nat)
    requires i < |signals|
    requires !Replay(start, signals[..i]).exited
    ensures var prev := Replay(start, signals[..i]);
      var h := Handle(prev.interruptedOnce, signals[i]);
      Replay(start, signals[..i + 1]) == Replayed(h.interruptedOnce, prev.reactions + [h.reaction], h.reaction == ForcedExit)
  {
    assert signals[..i + 1][..i] == signals[..i];
  }

  /** The replay of the handled prefix is the replay of the whole run. */
  lemma ReplayDone(start: bool, signals: seq<Signal>, i: nat)
    requires i <= |signals|
    requires i == |signals| || Replay(start, signals[..i]).exited
    ensures Replay(start, signals) == Replay(start, signals[..i])
  {
    if i == |signals| {
      assert signals[..i] == signals;
    } else {
      ReplayStopsAtExit(start, signals, i);
    }
  }

  /** The begin-body is the logging step, then `Checked` when logging succeeded. */
  lemma AttemptSplits(values: map<string, Value>, x: Externals, interruptedOnce: bool)
    requires RunnerKeys <= values.Keys
    ensures var log := LogOf(values, x);
      Attempt(values, x, interruptedOnce)
        == if log.ok then Checked(values, x, interruptedOnce, log.trace, log.logOpen)
           else Attempted(Raises(UsageError), log.trace, [], {}, log.logOpen, interruptedOnce)
  {
  }

  class Runner {
    const loadPath: Environment.LoadPath
    var interruptedOnce: bool
    /** Whether `@log_fd` is set. Closing the file in the ensure clause leaves it set, as in Ruby. */
    var logOpen: bool
    var level: Level
    /** The effects of the current `execute`, in order. */
    var trace: seq<Effect>

    /** `initialize` sets no level; `Warn` is a placeholder until `configure_logging`, the
        first step of `execute`, sets it. */
    constructor (loadPath: Environment.LoadPath)
      ensures this.loadPath == loadPath
      ensures !interruptedOnce && !logOpen && level == Warn && trace == []
    {
      this.loadPath := loadPath;
      interruptedOnce := false;
      logOpen := false;
      level := Warn;
      trace := [];
    }

    /** `configure_logging`: pick the level, open the log file when a path is given (a
        failure to open it is a usage error), and warn about `--debug.config` without the
        debug level. */
    method ConfigureLogging(path: Value, quiet: bool, verbose: bool, debug: bool, debugConfig: bool, opens: bool)
      returns (ok: bool)
      modifies this
      ensures var l := Logging(path, quiet, verbose, debug, debugConfig, opens);
        && ok == l.ok && level == l.level && logOpen == l.logOpen && trace == old(trace) + l.trace
      ensures interruptedOnce == old(interruptedOnce)
    {
      var selected;
      if quiet {
        selected := Error;
      } else if verbose {
        selected := Info;
      } else if debug {
        selected := Debug;
      } else {
        selected := Warn;
      }
      level := selected;
      var effects := [LevelSet(selected)];
      ok := true;
      logOpen := false;
      if Truthy(path) {
        if opens {
          logOpen := true;
          effects := effects + [LogFileOpened];
        } else {
          ok := false;
        }
      }
      if ok && debugConfig && selected != Debug {
        effects := effects + [DebugConfigWarned];
      }
      trace := trace + effects;
    }

    /** `configure_plugin_paths`: add each path to the load path, stopping with a usage
        error at the first one that is not a directory. */
    method ConfigurePluginPaths(paths: Value, dirs: set<string>) returns (failure: Option<Failure>)
      modifies loadPath
      ensures PathsOf(paths).Err? ==>
        failure == Some(PathsOf(paths).error) && loadPath.entries == old(loadPath.entries)
      ensures PathsOf(paths).Ok? ==>
        var added := DirPrefix(PathsOf(paths).value, dirs);
        && loadPath.entries == old(loadPath.entries) + added
        && (failure == None <==> added == PathsOf(paths).value)
        && (failure != None ==> failure == Some(UsageError))
    {
      match PathsOf(paths)
      case Err(f) =>
        failure := Some(f);
      case Ok(ps) =>
        var i := 0;
        while i < |ps|
          invariant 0 <= i <= |ps|
          invariant forall j :: 0 <= j < i ==> ps[j] in dirs
          invariant loadPath.entries == old(loadPath.entries) + ps[..i]
        {
          if ps[i] !in dirs {
            DirPrefixUnique(ps, dirs, ps[..i]);
            return Some(UsageError);
          }
          loadPath.AddPluginPath(ps[i]);
          assert ps[..i + 1] == ps[..i] + [ps[i]];
          i := i + 1;
        }
        assert ps[..i] == ps;
        DirPrefixUnique(ps, dirs, ps);
        failure := None;
    }

    /** The INT handler: the first INT stops the agent task and sets the flag, a second one
        exits the process. */
    method OnInt() returns (reaction: Reaction)
      modifies this
      ensures Handled(interruptedOnce, reaction) == Handle(old(interruptedOnce), Int)
      ensures trace == old(trace) + [Reacted(reaction)]
      ensures logOpen == old(logOpen) && level == old(level)
    {
      if interruptedOnce {
        reaction := ForcedExit;
      } else {
        interruptedOnce := true;
        reaction := StopTask;
      }
      trace := trace + [Reacted(reaction)];
    }

    /** The TERM handler stops the agent task. */
    method OnTerm() returns (reaction: Reaction)
      modifies this
      ensures Handled(interruptedOnce, reaction) == Handle(old(interruptedOnce), Term)
      ensures trace == old(trace) + [Reacted(reaction)]
      ensures logOpen == old(logOpen) && level == old(level)
    {
      reaction := StopTask;
      trace := trace + [Reacted(reaction)];
    }

    /** The HUP handler reloads the agent's state. */
    method OnHup() returns (reaction: Reaction)
      modifies this
      ensures Handled(interruptedOnce, reaction) == Handle(old(interruptedOnce), Hup)
      ensures trace == old(trace) + [Reacted(reaction)]
      ensures logOpen == old(logOpen) && level == old(level)
    {
      reaction := ReloadState;
      trace := trace + [Reacted(reaction)];
    }

    /** Run the handler trapped for `s`. */
    method Deliver(s: Signal) returns (reaction: Reaction)
      modifies this
      ensures Handled(interruptedOnce, reaction) == Handle(old(interruptedOnce), s)
      ensures trace == old(trace) + [Reacted(reaction)]
      ensures logOpen == old(logOpen) && level == old(level)
    {
      match s {
        case Int => reaction := OnInt();
        case Term => reaction := OnTerm();
        case Hup => reaction := OnHup();
      }
    }

    /** Deliver signals one at a time to the handlers while waiting on the agent task, until
        they run out or the INT handler exits the process. */
    method Await(signals: seq<Signal>) returns (exited: bool)
      modifies this
      ensures var r := Replay(old(interruptedOnce), signals);
        && exited == r.exited && interruptedOnce == r.interruptedOnce
        && trace == old(trace) + Reactions(r.reactions)
      ensures logOpen == old(logOpen) && level == old(level)
    {
      ghost var start := interruptedOnce;
      ghost var before := trace;
      ghost var r := Replay(start, signals[..0]);
      exited := false;
      var i: nat := 0;
      while i < |signals| && !exited
        invariant i <= |signals|
        invariant r == Replay(start, signals[..i])
        invariant exited == r.exited && interruptedOnce == r.interruptedOnce
        invariant trace == before + Reactions(r.reactions)
        invariant logOpen == old(logOpen) && level == old(level)
        decreases |signals| - i
      {
        exited, r := DeliverNext(signals, i, start, before, r);
        i := i + 1;
      }
      ReplayDone(start, signals, i);
    }

    /** One turn of `Await`: deliver the signal at `i` after a prefix that did not exit,
        whose replay is `prev`. */
    method DeliverNext(signals: seq<Signal>, i: nat, ghost start: bool, ghost before: seq<Effect>, ghost prev: Replayed)
      returns (exited: bool, ghost r: Replayed)
      requires i < |signals|
      requires prev == Replay(start, signals[..i])
      requires !prev.exited && interruptedOnce == prev.interruptedOnce
      requires trace == before + Reactions(prev.reactions)
      modifies this
      ensures r == Replay(start, signals[..i + 1])
      ensures exited == r.exited && interruptedOnce == r.interruptedOnce
      ensures trace == before + Reactions(r.reactions)
      ensures logOpen == old(logOpen) && level == old(level)
    {
      var reaction := Deliver(signals[i]);
      ReplayNext(start, signals, i, before, trace, interruptedOnce, reaction);
      exited := reaction == ForcedExit;
      r := Replay(start, signals[..i + 1]);
    }

    /** `@agent_task.wait` with the traps in place, then `@agent.shutdown` unless the
        wait re-raised the agent task's exception. */
    method WaitForTask(x: Externals, ghost added: seq<string>) returns (body: Body)
      modifies this
      ensures var a := AwaitTask(x, old(interruptedOnce), old(trace), added, old(logOpen));
        && body == a.body && trace == a.trace && interruptedOnce == a.interruptedOnce
      ensures logOpen == old(logOpen) && level == old(level)
    {
      var exited := Await(x.signals);
      if exited {
        return Exits;
      }
      match x.task {
        case Crashed =>
          body := Raises(RuntimeError);
        case Completed(code) =>
          trace := trace + [AgentShutdown];
          body := if x.shutdownOk then Returns(code) else Raises(RuntimeError);
      }
    }

    /** Create the agent, register the main pipeline, trap INT and TERM, start the agent task,
        trap HUP, and wait. */
    method StartAgent(x: Externals, ghost added: seq<string>) returns (body: Body, installed: set<Signal>)
      modifies this
      ensures var a := Boot(x, old(interruptedOnce), old(trace), added, old(logOpen));
        && body == a.body && installed == a.installed && trace == a.trace
        && interruptedOnce == a.interruptedOnce
      ensures logOpen == old(logOpen) && level == old(level)
    {
      installed := {};
      if !x.agentCreates {
        return Raises(RuntimeError), installed;
      }
      trace := trace + [AgentCreated];
      if !x.pipelineRegisters {
        return Raises(RuntimeError), installed;
      }
      trace := trace + [PipelineRegistered];
      trace := trace + [Trapped(Int)];
      trace := trace + [Trapped(Term)];
      assert trace == old(trace) + [AgentCreated, PipelineRegistered, Trapped(Int), Trapped(Term)];
      body, installed := LaunchTask(x, added);
    }

    /** With INT and TERM trapped: start the agent task, trap HUP, and wait. */
    method LaunchTask(x: Externals, ghost added: seq<string>) returns (body: Body, installed: set<Signal>)
      modifies this
      ensures var a := Launch(x, old(interruptedOnce), old(trace), added, old(logOpen));
        && body == a.body && installed == a.installed && trace == a.trace
        && interruptedOnce == a.interruptedOnce
      ensures logOpen == old(logOpen) && level == old(level)
    {
      installed := {Int, Term};
      if !x.taskSpawns {
        return Raises(RuntimeError), installed;
      }
      trace := trace + [TaskStarted];
      trace := trace + [Trapped(Hup)];
      installed := installed + {Hup};
      assert trace == old(trace) + [TaskStarted, Trapped(Hup)];
      body := WaitForTask(x, added);
    }

    /** From the version flag on: show the version, start a shell, or check the
        configuration settings and then either test the configuration or start the agent. */
    method DispatchCommand(values: map<string, Value>, x: Externals, ghost added: seq<string>)
      returns (body: Body, installed: set<Signal>)
      requires RunnerKeys <= values.Keys
      modifies this
      ensures var a := Dispatch(values, x, old(interruptedOnce), old(trace), added, old(logOpen));
        && body == a.body && installed == a.installed && trace == a.trace
        && interruptedOnce == a.interruptedOnce
      ensures logOpen == old(logOpen) && level == old(level)
    {
      installed := {};
      if Truthy(values["version"]) {
        match x.verbosity {
          case Undefined =>
            trace := trace + [VersionShown(VersionReport(false, false, false))];
            body := Raises(RuntimeError);
          case Answers(v) =>
            trace := trace + [VersionShown(VersionLines(v, Truthy(values["debug"]), Truthy(values["verbose"]), x.jruby))];
            body := Returns(0);
        }
        return;
      }
      if Truthy(values["ruby_shell"]) {
        match ShellFor(values["ruby_shell"]) {
          case Ok(shell) =>
            trace := trace + [ShellStarted(shell)];
            body := Returns(x.shellResult);
          case Err(f) =>
            body := Raises(f);
        }
        return;
      }
      trace := trace + [SettingsLogged];
      body, installed := CheckConfiguration(values, x, added);
    }

    /** After the settings are logged: refuse a run without a configuration or an
        auto-reload without a config path, then test the configuration or start the agent. */
    method CheckConfiguration(values: map<string, Value>, x: Externals, ghost added: seq<string>)
      returns (body: Body, installed: set<Signal>)
      requires RunnerKeys <= values.Keys
      modifies this
      ensures var a := Configured(values, x, old(interruptedOnce), old(trace), added, old(logOpen));
        && body == a.body && installed == a.installed && trace == a.trace
        && interruptedOnce == a.interruptedOnce
      ensures logOpen == old(logOpen) && level == old(level)
    {
      installed := {};
      if values["config.string"] == Nil && values["config.path"] == Nil {
        return Raises(UsageError), installed;
      }
      if Truthy(values["config.auto_reload"]) && values["config.path"] == Nil {
        return Raises(UsageError), installed;
      }
      if Truthy(values["config.test"]) {
        if !x.configFormats {
          return Raises(RuntimeError), installed;
        }
        if x.pipelineConstructs {
          trace := trace + [ConfigurationOk];
          return Returns(0), installed;
        }
        trace := trace + [ConfigurationInvalid];
        return Returns(1), installed;
      }
      body, installed := StartAgent(x, added);
    }

    /** After logging: refuse an old Ruby or Java, set the shutdown policy, add the
        plugin paths, then dispatch. */
    method CheckAndDispatch(values: map<string, Value>, x: Externals, ghost t: seq<Effect>, ghost open: bool, ghost flag: bool)
      returns (body: Body, installed: set<Signal>)
      requires RunnerKeys <= values.Keys
      requires trace == t && logOpen == open && interruptedOnce == flag
      modifies this, loadPath
      ensures var a := Checked(values, x, flag, t, open);
        && body == a.body && installed == a.installed && trace == a.trace
        && logOpen == a.logOpen && interruptedOnce == a.interruptedOnce
        && loadPath.entries == old(loadPath.entries) + a.added
      ensures level == old(level)
    {
      installed := {};
      if x.rubyTooOld || x.badJava {
        trace := trace + [RequirementReported];
        return Returns(1), installed;
      }
      trace := trace + [ShutdownPolicySet(Truthy(values["pipeline.unsafe_shutdown"]))];
      var failure := ConfigurePluginPaths(values["plugin.paths"], x.directories);
      if failure != None {
        return Raises(failure.value), installed;
      }
      DispatchAdds(values, x, interruptedOnce, trace, PathsOf(values["plugin.paths"]).value, logOpen);
      body, installed := DispatchCommand(values, x, PathsOf(values["plugin.paths"]).value);
    }

    /** The rescue arms: a usage error prints the message and the short help, anything
        else is logged as fatal. */
    method RescueArms(body: Body)
      modifies this
      ensures trace == old(trace) + Rescue(body)
      ensures logOpen == old(logOpen) && interruptedOnce == old(interruptedOnce) && level == old(level)
    {
      match body {
        case Raises(UsageError) => trace := trace + [UsageReported];
        case Raises(RuntimeError) => trace := trace + [FatalLogged];
        case _ =>
      }
    }

    /** The ensure clause: untrap each signal that was trapped, close the log file. */
    method EnsureClause(installed: set<Signal>)
      modifies this
      ensures trace == old(trace) + Release(installed, logOpen)
      ensures logOpen == old(logOpen) && interruptedOnce == old(interruptedOnce) && level == old(level)
    {
      var released := [];
      if Int in installed {
        released := released + [Untrapped(Int)];
      }
      if Term in installed {
        released := released + [Untrapped(Term)];
      }
      if Hup in installed {
        released := released + [Untrapped(Hup)];
      }
      if logOpen {
        released := released + [LogFileClosed];
      }
      trace := trace + released;
    }

    /** `configure_logging` on the logging settings, as the begin-body calls it on an
        empty trace. */
    method OpenLog(values: map<string, Value>, x: Externals) returns (ok: bool)
      requires RunnerKeys <= values.Keys
      requires trace == []
      modifies this
      ensures var log := LogOf(values, x);
        && ok == log.ok && trace == log.trace && logOpen == log.logOpen && level == log.level
      ensures interruptedOnce == old(interruptedOnce)
    {
      ok := ConfigureLogging(values["log.path"], Truthy(values["quiet"]), Truthy(values["verbose"]),
                             Truthy(values["debug"]), Truthy(values["debug.config"]), x.logFileOpens);
      assert [] + LogOf(values, x).trace == LogOf(values, x).trace;
    }

    /** The begin-body of `execute`, on a runner whose trace is empty: configure logging,
        then go on when that succeeded. */
    method BeginBody(values: map<string, Value>, x: Externals) returns (body: Body, installed: set<Signal>)
      requires RunnerKeys <= values.Keys
      requires trace == []
      modifies this, loadPath
      ensures level == LogOf(values, x).level
      ensures var log := LogOf(values, x);
        !log.ok ==>
          && body == Raises(UsageError) && installed == {} && trace == log.trace
          && logOpen == log.logOpen && interruptedOnce == old(interruptedOnce)
          && loadPath.entries == old(loadPath.entries)
      ensures var log := LogOf(values, x);
        log.ok ==>
          var a := Checked(values, x, old(interruptedOnce), log.trace, log.logOpen);
          && body == a.body && installed == a.installed && trace == a.trace
          && logOpen == a.logOpen && interruptedOnce == a.interruptedOnce
          && loadPath.entries == old(loadPath.entries) + a.added
    {
      ghost var start := interruptedOnce;
      var ok := OpenLog(values, x);
      ghost var log := LogOf(values, x);
      if !ok {
        return Raises(UsageError), {};
      }
      CheckedKeepsLog(values, x, start, log.trace, log.logOpen);
      body, installed := CheckAndDispatch(values, x, log.trace, log.logOpen, start);
    }

    /** `execute`: the begin-body, the rescue arms (both return 1), then the ensure clause. */
    method Execute(values: map<string, Value>, x: Externals) returns (exit: Exit)
      requires RunnerKeys <= values.Keys
      modifies this, loadPath
      ensures var o := Startup.Execute(values, x, old(interruptedOnce));
        && exit == o.exit && trace == o.trace && interruptedOnce == o.interruptedOnce
        && loadPath.entries == old(loadPath.entries) + o.added
      ensures level == LogOf(values, x).level
      ensures logOpen == Startup.Attempt(values, x, old(interruptedOnce)).logOpen
    {
      trace := [];
      AttemptSplits(values, x, interruptedOnce);
      var body, installed := BeginBody(values, x);
      RescueArms(body);
      EnsureClause(installed);
      exit := match body
        case Returns(code) => Returned(code)
        case Raises(_) => Returned(1)
        case Exits => Exited(DefaultExitStatus);
    }
  }
}
