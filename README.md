# Logstash runner and environment, in Dafny

This project models two pieces of the Logstash process lifecycle:

- `LogStash::Runner#execute` (`logstash-core/lib/logstash/runner.rb`). This is the start-up decision sequence:
  - configure logging;
  - refuse an old Ruby or Java;
  - set the unsafe-shutdown policy;
  - add the plugin paths;
  - take the version short-circuit or the interactive-shell branch;
  - refuse a run without a configuration, or an auto-reload without a config path;
  - config-test mode;
  - create the agent, trap INT and TERM, run the agent task, trap HUP, wait and shut down;
  - the two rescue arms and the ensure clause that releases what was installed.

  It also covers the INT / TERM / HUP handlers that share the `@interrupted_once` flag.
- `LogStash::Environment` and the built-in settings catalog (`logstash-core/lib/logstash/environment.rb`):
  - the 25 settings registered at load time;
  - the `production?` / `development?` / `test?` predicates over `LS_ENV`;
  - the jar-root paths, `ruby_bin` and `find_jars`;
  - the plugin load path.

Modules:

- `Wrappers`: `Option` and `Result`.
- `Catalog`: the setting records, the catalog and its defaults, and the `Registry` class that the registration loop fills.
- `Environment`: the environment predicates and path helpers, and the `LoadPath` class (`$LOAD_PATH`).
- `Signals`: one handler call as `Handle`, and a sequence of delivered signals as `Replay`.
- `Startup`: `execute` as functions.
  - `Attempt` and its stages (`Checked`, `Dispatch`, `Configured`, `Boot`, `Launch`, `AwaitTask`) give the begin-body's end, its trace of observable effects, the plugin paths added, the traps installed and whether the log file is open.
  - `Finish` adds the rescue arms and the ensure clause.
  - The properties of a run are lemmas about `Startup.Execute`.
- `Runner`: the `Runner` class.
  - Its fields are the flag, the log level, the open log file and the trace.
  - Its methods follow `execute` step by step with early returns.
  - Each method is proved to end in the state that the matching `Startup` function computes. This carries every property of `Startup.Execute` over to `Runner.Runner.Execute`.

What lies outside the core is a parameter (`Startup.Externals`):

- whether the log file opens;
- the Ruby and Java version checks;
- which paths are directories;
- what a call of `verbosity?` does (see below), and `jruby?`;
- what a shell returns;
- whether the configuration formats and the pipeline constructs;
- whether the agent, the pipeline registration and the agent task start;
- the signals delivered while the agent task runs;
- how the agent task ends;
- whether shutdown returns.

Settings are a map from name to `Catalog.Value`.

When `@agent_task.wait` re-raises the agent task's exception, control goes straight to the rescue arm, so `@agent.shutdown` is not called. On `Crashed`, `AgentShutdown` is not in the trace.

`show_version` calls `verbosity?` (runner.rb:255 and 258). Neither runner.rb nor environment.rb defines that method, and no option declares a `verbosity` attribute. As written, `--version` therefore prints the Logstash version line and then raises NoMethodError. The `rescue => e` arm logs that as fatal and `execute` returns 1. The model makes the call a parameter, `Startup.Verbosity`: `Undefined` is the code as written, and `Answers(level)` is a definition supplied elsewhere. `Startup.VersionShortCircuit` states the outcome in both cases.

A Ruby `exit` in the INT handler raises `SystemExit`. `SystemExit` is not a `StandardError`, so neither rescue arm catches it, but the ensure clause still runs. This is `Body.Exits`, which `Finish` maps to `Exit.Exited(0)` after releasing the traps: `exit` without an argument means `exit(true)`, status 0.

## Model

| member | source | states |
|---|---|---|
| Catalog.Catalog | logstash-core/lib/logstash/environment.rb:8-33 | the 25 settings in registration order, each with its name, type, default and strictness |
| Catalog.Defaults | logstash-core/lib/logstash/environment.rb:8-34 | for a list whose names are distinct (as `Catalog.CatalogNamesDistinct` proves of the catalog), the map from each registered name to its default |
| Catalog.CatalogSize | logstash-core/lib/logstash/environment.rb:8-34 | the catalog registers exactly 25 settings |
| Catalog.CatalogNamesDistinct | logstash-core/lib/logstash/environment.rb:8-34 | no setting name is registered twice |
| Catalog.BooleansDefaultFalse | logstash-core/lib/logstash/environment.rb:8-34 | every boolean setting defaults to false |
| Catalog.LenientExactlyWithoutDefault | logstash-core/lib/logstash/environment.rb:8-34 | a setting is lenient exactly when its default is nil, and exactly when its name is one of the four lenient names |
| Catalog.LenientSettingsHaveNoDefault | logstash-core/lib/logstash/environment.rb:11-31 | `config.path`, `config.string`, `ruby_shell` and `log.path` are registered, lenient and without a default |
| Catalog.DefaultsConform | logstash-core/lib/logstash/environment.rb:8-34 | every present default is of its setting's declared type |
| Catalog.DefaultsDomain | logstash-core/lib/logstash/environment.rb:8-34 | a name has a default entry exactly when some registered setting carries that name |
| Catalog.DefaultAt | logstash-core/lib/logstash/environment.rb:8-34 | the default found under a name is the setting's own when no later setting reuses the name |
| Catalog.CatalogDefault | logstash-core/lib/logstash/environment.rb:8-34 | each catalog entry's default is what the registry answers for its name |
| Catalog.PipelineDefaults | logstash-core/lib/logstash/environment.rb:17-19 | `pipeline.id` is "main", `pipeline.workers` is the core count, and `pipeline.output.workers` is 1 |
| Catalog.BatchDefaults | logstash-core/lib/logstash/environment.rb:20-21 | `pipeline.batch.size` is 125 and `pipeline.batch.delay` is 5 |
| Catalog.ServiceDefaults | logstash-core/lib/logstash/environment.rb:9-33 | `node.name` is the host name, `config.reload_interval` is 3, `plugin.paths` is empty, `web_api.http.host` is "127.0.0.1" and `web_api.http.port` is 9600 |
| Catalog.Registry.constructor | logstash-core/lib/logstash/environment.rb:34 | a new registry is empty and valid |
| Catalog.Registry.Register | logstash-core/lib/logstash/environment.rb:34 | registering a fresh name appends the setting and keeps names distinct |
| Catalog.RegisterAll | logstash-core/lib/logstash/environment.rb:34 | the `each` loop appends the settings in order and keeps names distinct |
| Catalog.RegisterCatalog | logstash-core/lib/logstash/environment.rb:8-34 | loading the file leaves the empty registry holding exactly the catalog, in order |
| Environment.Env | logstash-core/lib/logstash/environment.rb:40-44 | `LS_ENV` when it is set, the empty string included, else "production" |
| Environment.Downcase | logstash-core/lib/logstash/environment.rb:46-56 | `String#downcase` on ASCII letters, position by position |
| Environment.IsProduction | logstash-core/lib/logstash/environment.rb:46-48 | the downcased name is "production" |
| Environment.IsDevelopment | logstash-core/lib/logstash/environment.rb:50-52 | the downcased name is "development" |
| Environment.IsTest | logstash-core/lib/logstash/environment.rb:54-56 | the downcased name is "test" |
| Environment.Join | logstash-core/lib/logstash/environment.rb:58-64 | `File.join`: the components with one "/" between neighbours |
| Environment.UnsetEnvIsProduction | logstash-core/lib/logstash/environment.rb:40-48 | with `LS_ENV` unset, `production?` holds |
| Environment.UpperCaseProduction | logstash-core/lib/logstash/environment.rb:40-48 | "PRODUCTION" is production |
| Environment.EmptyEnvIsNoEnvironment | logstash-core/lib/logstash/environment.rb:40-56 | an empty `LS_ENV` does not fall back to production and names none of the three environments |
| Environment.DowncaseMatches | logstash-core/lib/logstash/environment.rb:46-56 | comparing a downcased name with a lower-case word is case-insensitive equality |
| Environment.ProductionIgnoresCase | logstash-core/lib/logstash/environment.rb:46-48 | `production?` holds exactly when the name equals "production" ignoring case |
| Environment.DevelopmentIgnoresCase | logstash-core/lib/logstash/environment.rb:50-52 | `development?` holds exactly when the name equals "development" ignoring case |
| Environment.TestIgnoresCase | logstash-core/lib/logstash/environment.rb:54-56 | `test?` holds exactly when the name equals "test" ignoring case |
| Environment.AtMostOneEnvironment | logstash-core/lib/logstash/environment.rb:46-56 | no two of `production?`, `development?` and `test?` hold together |
| Environment.JoinThree | logstash-core/lib/logstash/environment.rb:58-64 | joining two or three components puts one separator between neighbours |
| Environment.RuntimeJarsRoot | logstash-core/lib/logstash/environment.rb:58-60 | the runtime jar root is the directory, the package and "runtime-jars", separated by "/" |
| Environment.TestJarsRoot | logstash-core/lib/logstash/environment.rb:62-64 | the test jar root is the directory, the package and "test-jars", separated by "/" |
| Environment.JarRootsDifferInLastComponent | logstash-core/lib/logstash/environment.rb:58-64 | both roots have the same parent and differ only in the last component, so they are never equal |
| Environment.RubyBin | logstash-core/lib/logstash/environment.rb:95-97 | the binary is "ruby" exactly when `USE_RUBY` is "1", and otherwise vendor/jruby/bin/jruby |
| Environment.FindJars | logstash-core/lib/logstash/environment.rb:81-86 | an error naming the pattern exactly when the glob found nothing; otherwise the globbed files unchanged |
| Environment.LoadPath.AddPluginPath | logstash-core/lib/logstash/environment.rb:123-125 | the path is appended at the end of the load path |
| Signals.Handle | logstash-core/lib/logstash/runner.rb:362-388 | the handler forces an exit exactly for an INT with the flag set; it reloads exactly for HUP; the flag afterwards is set exactly when it was set or the signal is INT |
| Signals.Replay | logstash-core/lib/logstash/runner.rb:362-388 | one reaction per handled signal, every signal handled unless exited, and an exit always ends in a forced exit |
| Signals.ReplayStopsAtExit | logstash-core/lib/logstash/runner.rb:376-381 | after the forced exit, later signals change nothing |
| Signals.ReplayExitsOnInt | logstash-core/lib/logstash/runner.rb:376-381 | the signal that forced the exit is an INT |
| Signals.ReplayInterrupts | logstash-core/lib/logstash/runner.rb:376-388 | the process exits exactly when the INTs seen, counting a flag already set, reach two; the flag is set once any INT was handled |
| Signals.ReplayStops | logstash-core/lib/logstash/runner.rb:369-388 | the stop requests are one per handled TERM, plus one for the first INT when the flag was clear |
| Signals.ReplayReloadsAndExits | logstash-core/lib/logstash/runner.rb:362-381 | the reloads are one per handled HUP, and there is exactly one forced exit when the run exited and none otherwise |
| Signals.Escalation | logstash-core/lib/logstash/runner.rb:362-388 | from a fresh runner: exit exactly when two INTs arrive; otherwise every signal is handled, one stop per TERM plus one for a single INT, one reload per HUP, and the flag is set exactly with one INT |
| Startup.Execute | logstash-core/lib/logstash/runner.rb:158-250 | the whole of `execute`: the begin-body, then the rescue arms and the ensure clause |
| Startup.Attempt | logstash-core/lib/logstash/runner.rb:165-236 | the begin-body: a usage error when the log file does not open, and otherwise the rest after logging |
| Startup.Checked | logstash-core/lib/logstash/runner.rb:169-185 | return 1 for an old Ruby or Java; else set the shutdown policy and add the plugin paths, raising at the first non-directory, then go on to the version flag |
| Startup.Dispatch | logstash-core/lib/logstash/runner.rb:187-194 | the version branch, then the shell branch, then the settings dump before the configuration checks |
| Startup.Configured | logstash-core/lib/logstash/runner.rb:196-216 | a usage error with no configuration, or with auto-reload and no path; then config-test mode (a fatal error when the configuration does not format, 0 when the pipeline constructs, 1 when it raises); otherwise the agent |
| Startup.Boot | logstash-core/lib/logstash/runner.rb:218-225 | create the agent and register the pipeline, each of which may raise, then trap INT and TERM |
| Startup.Launch | logstash-core/lib/logstash/runner.rb:227-230 | start the agent task (raising with INT and TERM trapped when it cannot start), then trap HUP |
| Startup.AwaitTask | logstash-core/lib/logstash/runner.rb:232-236 | deliver the signals while waiting; a forced exit ends the body; a crashed task re-raises without shutdown; a completed one shuts the agent down and returns its value unless shutdown raises |
| Startup.Finish | logstash-core/lib/logstash/runner.rb:238-249 | append the rescue arm and the released traps and log file to the begin-body's trace, and map its end to the exit |
| Startup.ExitOf | logstash-core/lib/logstash/runner.rb:236-244 | a returned value is the exit code, both rescue arms return 1, and a forced exit leaves the process with status 0 |
| Startup.PathsOf | logstash-core/lib/logstash/runner.rb:287 | `Array(paths)`: nil is no path, a string one path, a list itself |
| Startup.LogLevel | logstash-core/lib/logstash/runner.rb:301-309 | the level is error if quiet, else info if verbose, else debug if debug, else warn, each in both directions |
| Startup.Logging | logstash-core/lib/logstash/runner.rb:298-331 | logging succeeds exactly when no path is given or the file opens; the file is open exactly when a path was given and it opened |
| Startup.LoggingTrace | logstash-core/lib/logstash/runner.rb:298-331 | the logger's effects begin with the level and hold only logging steps; the debug-config warning appears exactly when logging succeeded with `debug.config` set and a level other than debug |
| Startup.DebugConfigWarning | logstash-core/lib/logstash/runner.rb:301-309 | the debug-config warning appears exactly when `debug.config` is set and quiet, verbose or the absence of debug takes the level away from debug |
| Startup.VersionLines | logstash-core/lib/logstash/runner.rb:252-260 | the Ruby description is shown exactly for info/debug verbosity, `--debug` or `--verbose`; Java only then and on JRuby; gems only then and with debug verbosity or `--debug` |
| Startup.GemsNeedDebug | logstash-core/lib/logstash/runner.rb:255-258 | the gem list needs debug verbosity or `--debug`, and implies the Ruby line |
| Startup.ShellFor | logstash-core/lib/logstash/runner.rb:346-359 | "pry" and "irb", and only those, select a shell; anything else is a usage error |
| Startup.SinglePathIsWrapped | logstash-core/lib/logstash/runner.rb:286-287 | a single path is treated as a one-element list, and nil as the empty one |
| Startup.DirPrefix | logstash-core/lib/logstash/runner.rb:286-291 | the added paths are a prefix of the given ones, all directories, and stop just before the first non-directory |
| Startup.DirPrefixUnique | logstash-core/lib/logstash/runner.rb:286-291 | those three facts determine the added paths |
| Startup.Reactions | logstash-core/lib/logstash/runner.rb:362-388 | the handler effects are one per reaction, in order |
| Startup.Rescue | logstash-core/lib/logstash/runner.rb:238-244 | a usage error gives exactly the usage report, any other failure exactly the fatal log, and a return or an exit nothing |
| Startup.Release | logstash-core/lib/logstash/runner.rb:245-249 | the ensure clause untraps exactly the installed signals and closes the log exactly when it is open |
| Startup.FinishReleases | logstash-core/lib/logstash/runner.rb:245-249 | each signal is untrapped exactly when it was trapped, and the log is closed exactly when it was opened, for a begin-body whose traps match what it installed |
| Startup.EnsureReleasesWhatWasInstalled | logstash-core/lib/logstash/runner.rb:218-249 | on every run, each signal is untrapped exactly when it was trapped, and the log file is closed exactly when it was opened |
| Startup.RescueExitsOne | logstash-core/lib/logstash/runner.rb:238-244 | a usage report or the fatal log of the `rescue => e` arm means exit 1, the two never occur together, and a forced exit (status 0) has neither rescue effect |
| Startup.AfterPrelude | logstash-core/lib/logstash/runner.rb:165-185 | when logging, the version checks and the plugin paths pass, the run continues at the version flag after logging and the shutdown policy |
| Startup.VersionShortCircuit | logstash-core/lib/logstash/runner.rb:187-190 | with the version flag, when `verbosity?` answers, the run returns 0 after showing the selected version lines; as written (`verbosity?` undefined) it prints only the Logstash line, logs a fatal error and returns 1; either way there is no settings logging, configuration check, config test, agent or trap |
| Startup.DispatchVersion | logstash-core/lib/logstash/runner.rb:187-190 | the version branch returns 0 with the lines `VersionLines` selects when `verbosity?` answers, and raises after the Logstash line when it is undefined |
| Startup.ShellDispatch | logstash-core/lib/logstash/runner.rb:192 | a shell setting of pry or irb returns that shell's result, and any other returns 1 with a usage report; the agent is never created |
| Startup.ConfigurationRequired | logstash-core/lib/logstash/runner.rb:196-203 | without `config.string` and `config.path`, or with auto-reload and no path, the run returns 1 with a usage report and never creates the agent or traps INT |
| Startup.ConfigTestExit | logstash-core/lib/logstash/runner.rb:205-216 | config-test returns 0 exactly when the configuration formats and the pipeline constructs, reports OK exactly then, reports invalid exactly when construction raises, and never creates the agent |
| Startup.NormalPathReturnsTaskResult | logstash-core/lib/logstash/runner.rb:218-249 | when the agent task completes and no signal forces an exit, the run returns the agent task's value; it ends with agent shutdown, then the three untraps, then the log close when a log path was given |
| Startup.ForcedExitOnSecondInterrupt | logstash-core/lib/logstash/runner.rb:224-249 | with the agent running: the process exits with status 0 exactly when two INTs arrive; then the agent is not shut down and all three traps are released; otherwise the flag is set exactly with one INT |
| Startup.LogFileFailure | logstash-core/lib/logstash/runner.rb:311-320 | a log file that does not open ends the run with 1, after only the level and the usage report |
| Startup.RequirementsExitOne | logstash-core/lib/logstash/runner.rb:169-180 | an old Ruby or Java returns 1 right after logging, with only the log close after it |
| Startup.PluginPathsFailFast | logstash-core/lib/logstash/runner.rb:185 | only a directory prefix of the plugin paths is added, and a non-directory stops the run with 1 and a usage report before the agent |
| Startup.CatalogCoversRunnerKeys | logstash-core/lib/logstash/environment.rb:8-34 | every setting `execute` reads is registered, so the defaults alone form a complete settings map for a run |
| Startup.DefaultsNeedConfiguration | logstash-core/lib/logstash/runner.rb:196-203 | a run with nothing but the registered defaults returns 1 and never creates the agent; once the Ruby and Java checks pass it is the usage error for the missing configuration |
| Runner.Runner.constructor | logstash-core/lib/logstash/runner.rb:152-156 | a new runner has the flag clear, no log file and an empty trace; its level is a placeholder (`Warn`) that `configure_logging` replaces before anything is logged |
| Runner.Runner.ConfigureLogging | logstash-core/lib/logstash/runner.rb:298-331 | the level, the open file, the result and the appended effects are those of `Startup.Logging` |
| Runner.Runner.ConfigurePluginPaths | logstash-core/lib/logstash/runner.rb:286-291 | appends exactly the directory prefix of `Array(paths)` to the load path; it succeeds exactly when every path is a directory, fails with a usage error at the first non-directory, and fails with a non-usage error when `paths` is neither nil, a string nor a list |
| Runner.Runner.OnInt | logstash-core/lib/logstash/runner.rb:376-388 | the INT handler's reaction and new flag are those of `Signals.Handle`, and its reaction is appended |
| Runner.Runner.OnTerm | logstash-core/lib/logstash/runner.rb:369-374 | the TERM handler stops the agent task and leaves the flag alone |
| Runner.Runner.OnHup | logstash-core/lib/logstash/runner.rb:362-367 | the HUP handler reloads and leaves the flag alone |
| Runner.Runner.Deliver | logstash-core/lib/logstash/runner.rb:362-388 | delivering a signal runs its handler |
| Runner.Runner.Await | logstash-core/lib/logstash/runner.rb:224-232 | delivering the signals one at a time leaves the flag, the exit and the reactions of `Signals.Replay` |
| Runner.Runner.DeliverNext | logstash-core/lib/logstash/runner.rb:362-388 | one more delivered signal extends the replay by that signal |
| Runner.Runner.WaitForTask | logstash-core/lib/logstash/runner.rb:232-236 | waiting, then shutting down unless the wait re-raised, ends as `Startup.AwaitTask` |
| Runner.Runner.LaunchTask | logstash-core/lib/logstash/runner.rb:227-232 | starting the agent task and trapping HUP ends as `Startup.Launch` |
| Runner.Runner.StartAgent | logstash-core/lib/logstash/runner.rb:218-232 | creating the agent and trapping INT and TERM ends as `Startup.Boot` |
| Runner.Runner.CheckConfiguration | logstash-core/lib/logstash/runner.rb:196-216 | the configuration checks and the config test end as `Startup.Configured` |
| Runner.Runner.DispatchCommand | logstash-core/lib/logstash/runner.rb:187-194 | the version and shell branches and the settings logging end as `Startup.Dispatch` |
| Runner.Runner.CheckAndDispatch | logstash-core/lib/logstash/runner.rb:169-185 | the version checks, the shutdown policy and the plugin paths end as `Startup.Checked`, with the added paths appended to the load path |
| Runner.Runner.OpenLog | logstash-core/lib/logstash/runner.rb:165 | logging with the run's settings ends as `Startup.LogOf` |
| Runner.Runner.BeginBody | logstash-core/lib/logstash/runner.rb:165-236 | the begin-body ends as `Startup.Attempt` |
| Runner.Runner.RescueArms | logstash-core/lib/logstash/runner.rb:238-244 | the rescue arms append `Startup.Rescue` |
| Runner.Runner.EnsureClause | logstash-core/lib/logstash/runner.rb:245-249 | the ensure clause appends `Startup.Release` |
| Runner.Runner.Execute | logstash-core/lib/logstash/runner.rb:158-250 | the exit, the trace, the flag and the load path are those of `Startup.Execute`, the level is the one `configure_logging` set, and `@log_fd` is set exactly when the log file was opened, so every lemma about it holds of the method |

## Left out

- The Clamp monkey-patch (`runner.rb:21-51`) and the option declarations: settings arrive as a map.
- Type validation and coercion inside the settings registry: `logstash/settings.rb` is not part of this model.
- Catalog.Registry.Register: requires a fresh name. What the registry does with a second registration of a name is not part of this model.
- The threads: `Stud::Task`, OS signal delivery, and the 5-second slow-shutdown warning thread. Signals are a sequence, delivered only while `@agent_task.wait` runs. The model does not deliver them during `@agent.shutdown` (runner.rb:234), although the traps are still installed then and a second INT would still force an exit there: the stalled-agent case named at runner.rb:222-223.
- Signals delivered before the traps are installed or after they are released, and exceptions raised inside a handler.
- The text of every message: I18n lookups, Cabin subscriptions and output, `$stderr` and `puts`. These are effects without contents.
- The printed lines of `show_version_ruby`, `show_version_java` and `show_gems`: only which of them are shown is modelled.
- `jruby?`, the Ruby and Java version checks, `File.directory?` and `File.new`: these are parameters.
- `verbosity?`: no file of this model defines it, so what a call does is a parameter. `Undefined` is the behaviour as written, and `Answers` stands for a definition elsewhere, which is not part of this model.
- Startup.Logging: does not model closing a previously open `@log_fd` on a second call. `execute` calls `configure_logging` once.
- `Socket.gethostname` and `CpuCoreStrategy.maximum`: these are parameters of `Catalog.Catalog`.
- `load_runtime_jars!`, `load_test_jars!`, `load_jars!` and `require_jars!`: Ruby `require` is outside the model, and `find_jars` takes the glob result as a parameter.
- `load_locale!`, `locales_path`, `windows?`, `jruby?` and `LOGSTASH_CORE`: these are host queries.
- Environment.Downcase: lower-cases ASCII letters only; Ruby's full Unicode case mapping is not modelled.
- Environment.Join: concatenates with "/" and does not collapse separators already present in the components.
- Startup.ShellFor: the shell sessions themselves are outside the model; what they return is a parameter.
- Floating-point and non-integer numeric settings: `Catalog.Value` holds integers only.
- `LogStash::Pipeline.new` and `Config::Loader#format_config`: whether they raise is a parameter. The model treats a `format_config` failure as a non-usage error, so it is rescued as a fatal error.
