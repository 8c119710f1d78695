/** `FunqPlugin.configure` (py/funq/noseplugin.py): what happens once per run
    when the host hands the plugin its parsed options.  The collaborators it
    calls (patching, reading the configuration file, registering the
    applications, initialising the screenshot folder) are recorded as steps;
    `realpath` and the "is a file" test are the host's and are parameters. */
module Plugin {
  import opened Wrappers
  import Environ
  import Options
  import Tracer

  /** A side effect of `configure`, in the order it is performed. */
  datatype Step =
    | PatchAssertions
    | ReadConf(path: string)
    | RegisterApplications(options: Options.RunConfig)
    | StoreTraceSettings(settings: Tracer.TraceSettings)
    | InitScreenshots(folder: string)

  /** The outcome of `configure`: the options as it leaves them, the steps it
      performed, the exception it raised (if any) and the trace settings it
      stored (if it got that far). */
  datatype Configured = Configured(
    options: Options.RunConfig,
    steps: seq<Step>,
    failure: Option<string>,
    settings: Option<Tracer.TraceSettings>)

  /** The message of the exception raised for a missing configuration file. */
  const MISSING_CONF_PREFIX := "Fichier de conf funq manquant: `"

  /** The path can be read back from between the prefix and the closing
      backquote. */
  function MissingConfMessage(path: string): (m: string)
    ensures |m| == |MISSING_CONF_PREFIX| + |path| + 1
    ensures m[..|MISSING_CONF_PREFIX|] == MISSING_CONF_PREFIX && m[|m| - 1] == '`'
    ensures m[|MISSING_CONF_PREFIX|..|m| - 1] == path
  {
    MISSING_CONF_PREFIX + path + "`"
  }

  /** Whether a step touches the application registry, the trace settings or
      the screenshot folder. */
  predicate SessionEffect(s: Step) {
    s.RegisterApplications? || s.StoreTraceSettings? || s.InitScreenshots?
  }

  function Configure(enabled: bool, options: Options.RunConfig,
                     realpath: string -> string, isFile: string -> bool): (r: Configured)
    // A disabled plugin does nothing at all.
    ensures !enabled ==> r.steps == [] && r.failure == None && r.settings == None && r.options == options
    // An enabled one patches the assertions first and resolves the conf path.
    ensures enabled ==> |r.steps| >= 1 && r.steps[0] == PatchAssertions
    ensures enabled ==> r.options == options.(conf := realpath(options.conf))
    // It fails exactly when the resolved path is not a file, naming that path ...
    ensures r.failure.Some? <==> enabled && !isFile(realpath(options.conf))
    ensures r.failure.Some? ==> r.failure.value == MissingConfMessage(realpath(options.conf))
    // ... and a failure comes before every session effect.
    ensures r.failure.Some? ==> r.settings == None
    ensures r.failure.Some? ==> forall i :: 0 <= i < |r.steps| ==> !SessionEffect(r.steps[i])
    // On success the conf file is read and registered before the trace
    // settings are stored and the screenshot folder is initialised.
    ensures enabled && r.failure.None? ==>
      var c := realpath(options.conf);
      var ts := Tracer.TraceSettings(options.traceTests, options.traceEncoding);
      && r.settings == Some(ts)
      && r.steps == [PatchAssertions, ReadConf(c), RegisterApplications(r.options),
                     StoreTraceSettings(ts), InitScreenshots(options.screenshotFolder)]
  {
    if !enabled then Configured(options, [], None, None)
    else
      var conf := realpath(options.conf);
      var options' := options.(conf := conf);
      if !isFile(conf) then
        Configured(options', [PatchAssertions], Some(MissingConfMessage(conf)), None)
      else
        var ts := Tracer.TraceSettings(options'.traceTests, options'.traceEncoding);
        Configured(options',
                   [PatchAssertions, ReadConf(conf), RegisterApplications(options'),
                    StoreTraceSettings(ts), InitScreenshots(options'.screenshotFolder)],
                   None, Some(ts))
  }

  /** End to end: with the trace-tests option resolved, a configured plugin
      traces exactly when that option is set and non-empty, whether it came
      from the command line or the environment. */
  lemma ConfiguredTracing(given: Options.Overrides, env: Option<Environ.Env>, osEnviron: Environ.Env,
                          host: Options.Host, realpath: string -> string, isFile: string -> bool)
    requires isFile(realpath(Options.Resolve(given, env, osEnviron, host).conf))
    ensures var r := Configure(true, Options.Resolve(given, env, osEnviron, host), realpath, isFile);
      && r.settings.Some?
      && (Tracer.Tracing(r.settings.value) <==>
          (if given.traceTests.Some? then Options.Truthy(given.traceTests)
           else Options.Truthy(Environ.Lookup(Options.ChooseEnv(env, osEnviron), Options.TRACE_TESTS_VAR))))
  {
  }
}
