/** The plugin's options (`FunqPlugin.options` in py/funq/noseplugin.py):
    each option's default is taken from an environment variable when that
    variable is set and non-empty, and from a fixed fallback otherwise; a
    value given on the command line replaces the default. */
module Options {
  import opened Wrappers
  import opened Environ

  const CONF_VAR := "NOSE_FUNQ_CONF"
  const GKIT_VAR := "NOSE_FUNQ_GKIT"
  const GKIT_FILE_VAR := "NOSE_FUNQ_GKIT_FILE"
  const ATTACH_EXE_VAR := "NOSE_FUNQ_ATTACH_EXE"
  const TRACE_TESTS_VAR := "NOSE_FUNQ_TRACE_TESTS"
  const TRACE_ENCODING_VAR := "NOSE_FUNQ_TRACE_TESTS_ENCODING"
  const SCREENSHOT_VAR := "NOSE_FUNQ_SCREENSHOT_FOLDER"

  const DEFAULT_CONF := "funq.conf"
  const DEFAULT_GKIT := "default"
  const GKIT_FILE_NAME := "aliases-gkits.conf"
  const DEFAULT_ENCODING := "utf-8"

  /** What the host computes and the model takes as given: the directory of
      the plugin module (`dirname(realpath(__file__))`), the result of
      `which('funq')` (`None` when not found) and
      `realpath("screenshot-errors")`. */
  datatype Host = Host(moduleDir: string, located: Option<string>, screenshotDefault: string)

  /** The resolved options of one run. `attachExe` and `traceTests` may be
      `None`; tracing is on only when `traceTests` is truthy. */
  datatype RunConfig = RunConfig(
    conf: string,
    gkit: string,
    gkitFile: string,
    attachExe: Option<string>,
    traceTests: Option<string>,
    traceEncoding: string,
    screenshotFolder: string)

  /** The values given on the command line (`--funq-conf` and so on); `None`
      where the flag is absent. */
  datatype Overrides = Overrides(
    conf: Option<string>,
    gkit: Option<string>,
    gkitFile: Option<string>,
    attachExe: Option<string>,
    traceTests: Option<string>,
    traceEncoding: Option<string>,
    screenshotFolder: Option<string>)

  /** Python truthiness of an optional string: set and non-empty. */
  predicate Truthy(v: Option<string>) {
    v.Some? && v.value != ""
  }

  /** `v or fallback` for a fallback string. */
  function OrDefault(v: Option<string>, fallback: string): string {
    if Truthy(v) then v.value else fallback
  }

  /** `v or fallback` for a fallback that may itself be `None`. */
  function OrElse(v: Option<string>, fallback: Option<string>): Option<string> {
    if Truthy(v) then v else fallback
  }

  /** `os.path.join(dir, name)` for a relative `name`. */
  function PathJoin(dir: string, name: string): (r: string)
    requires |name| > 0 && name[0] != '/'
    ensures |r| >= |dir| + |name|
    ensures dir == "" ==> r == name
    ensures dir != "" ==> r[..|dir|] == dir && r[|r| - |name|..] == name
    ensures dir != "" && dir[|dir| - 1] != '/' ==> |r| == |dir| + 1 + |name| && r[|dir|] == '/'
    ensures dir != "" && dir[|dir| - 1] == '/' ==> |r| == |dir| + |name|
  {
    if dir == "" || dir[|dir| - 1] == '/' then dir + name else dir + "/" + name
  }

  /** `env = env or os.environ`: an absent or empty mapping falls back to
      the process environment. */
  function ChooseEnv(env: Option<Env>, osEnviron: Env): (r: Env)
    ensures env.Some? && env.value != map[] ==> r == env.value
    ensures env.None? || env.value == map[] ==> r == osEnviron
  {
    if env.Some? && |env.value| > 0 then env.value else osEnviron
  }

  /** The `env` argument of `options` falls back to the process environment:
      leaving it out or passing an empty mapping resolves the options as the
      process environment itself would, and a non-empty mapping makes the
      process environment irrelevant. */
  lemma EnvFallback(given: Overrides, env: Env, os1: Env, os2: Env, host: Host)
    ensures Resolve(given, None, os1, host) == Resolve(given, Some(map[]), os1, host)
    ensures Resolve(given, None, os1, host) == Resolve(given, Some(os1), os1, host)
    ensures env != map[] ==> Resolve(given, Some(env), os1, host) == Resolve(given, Some(env), os2, host)
  {
  }

  /** The defaults registered with the option parser: each is the variable's
      value when it is set and non-empty, and its fallback otherwise; the
      trace-tests default is the variable as it is, possibly unset or empty. */
  function Defaults(env: Env, host: Host): (d: RunConfig)
    ensures Resolved(d.conf, None, Lookup(env, CONF_VAR), DEFAULT_CONF)
    ensures Resolved(d.gkit, None, Lookup(env, GKIT_VAR), DEFAULT_GKIT)
    ensures Resolved(d.gkitFile, None, Lookup(env, GKIT_FILE_VAR), PathJoin(host.moduleDir, GKIT_FILE_NAME))
    ensures d.attachExe == if Truthy(Lookup(env, ATTACH_EXE_VAR)) then Lookup(env, ATTACH_EXE_VAR) else host.located
    ensures d.traceTests == Lookup(env, TRACE_TESTS_VAR)
    ensures Resolved(d.traceEncoding, None, Lookup(env, TRACE_ENCODING_VAR), DEFAULT_ENCODING)
    ensures Resolved(d.screenshotFolder, None, Lookup(env, SCREENSHOT_VAR), host.screenshotDefault)
  {
    RunConfig(
      OrDefault(Lookup(env, CONF_VAR), DEFAULT_CONF),
      OrDefault(Lookup(env, GKIT_VAR), DEFAULT_GKIT),
      OrDefault(Lookup(env, GKIT_FILE_VAR), PathJoin(host.moduleDir, GKIT_FILE_NAME)),
      OrElse(Lookup(env, ATTACH_EXE_VAR), host.located),
      Lookup(env, TRACE_TESTS_VAR),
      OrDefault(Lookup(env, TRACE_ENCODING_VAR), DEFAULT_ENCODING),
      OrDefault(Lookup(env, SCREENSHOT_VAR), host.screenshotDefault))
  }

  /** The option parser's result: a flag given on the command line wins over
      the registered default. */
  function Parse(given: Overrides, d: RunConfig): RunConfig {
    RunConfig(
      given.conf.GetOr(d.conf),
      given.gkit.GetOr(d.gkit),
      given.gkitFile.GetOr(d.gkitFile),
      if given.attachExe.Some? then given.attachExe else d.attachExe,
      if given.traceTests.Some? then given.traceTests else d.traceTests,
      given.traceEncoding.GetOr(d.traceEncoding),
      given.screenshotFolder.GetOr(d.screenshotFolder))
  }

  /** One option's value under the precedence command line, then a set and
      non-empty environment variable, then the fallback. */
  predicate Resolved(r: string, given: Option<string>, envValue: Option<string>, fallback: string) {
    if given.Some? then r == given.value
    else if Truthy(envValue) then r == envValue.value
    else r == fallback
  }

  /** The options of a run, from the command line, the environment passed to
      `options` (or the process environment) and the host's facts. */
  function Resolve(given: Overrides, env: Option<Env>, osEnviron: Env, host: Host): (r: RunConfig)
    ensures var e := ChooseEnv(env, osEnviron);
      && Resolved(r.conf, given.conf, Lookup(e, CONF_VAR), DEFAULT_CONF)
      && Resolved(r.gkit, given.gkit, Lookup(e, GKIT_VAR), DEFAULT_GKIT)
      && Resolved(r.gkitFile, given.gkitFile, Lookup(e, GKIT_FILE_VAR),
                  PathJoin(host.moduleDir, GKIT_FILE_NAME))
      && Resolved(r.traceEncoding, given.traceEncoding, Lookup(e, TRACE_ENCODING_VAR), DEFAULT_ENCODING)
      && Resolved(r.screenshotFolder, given.screenshotFolder, Lookup(e, SCREENSHOT_VAR),
                  host.screenshotDefault)
    // The executable's fallback `which('funq')` may itself be None.
    ensures var v := Lookup(ChooseEnv(env, osEnviron), ATTACH_EXE_VAR);
      if given.attachExe.Some? then r.attachExe == given.attachExe
      else if Truthy(v) then r.attachExe == v
      else r.attachExe == host.located
    // The trace file has no fallback: unset stays None and an empty value stays empty.
    ensures given.traceTests.Some? ==> r.traceTests == given.traceTests
    ensures given.traceTests.None? ==> r.traceTests == Lookup(ChooseEnv(env, osEnviron), TRACE_TESTS_VAR)
  {
    Parse(given, Defaults(ChooseEnv(env, osEnviron), host))
  }
}
