# funq: verified model of the test-runner plugin logic and the hook's start-up decisions

funq drives Qt applications from Python tests.  Two small pieces of it hold
pure, sequential logic, and this project models them in Dafny:

- the nose plugin `FunqPlugin` (`py/funq/noseplugin.py`):
  - the snake_case aliases it installs for `unittest`'s camelCase `assertXxx`
    methods (`pep8` and the name filter);
  - how each option gets its default from the environment;
  - the control flow of `configure`;
  - the per-test tracer. `beforeTest` and `afterTest` each write a
    three-line block framed by 70 dashes to the log and, when a trace file is
    configured, append the same block to that file.
- the injected library's start-up (`server/libFunq/funq.cpp`): whether to
  activate, PLAYER or PICK mode, and the TCP port.

Modules, one per concern:

| file | module | models |
|---|---|---|
| wrappers.dfy | `Wrappers` | `Option` (Python `None`, C `NULL`) |
| environ.dfy | `Environ` | environment lookups |
| text.dfy | `Text` | `startswith`, `'\n'.join`, `split('\n')` |
| assert_naming.dfy | `AssertNaming` | `pep8`, the alias filter and the alias loop |
| options.dfy | `Options` | `FunqPlugin.options` defaults and command-line precedence |
| tracer.dfy | `Tracer` | `message_with_sep`, `current_test_name`, `beforeTest`, `afterTest` |
| plugin.dfy | `Plugin` | `FunqPlugin.configure` |
| hook.dfy | `Hook` | `Funq::activate`, `Funq::active_hook_player`, `atoi` |

The log and the trace file are append-only sequences. Each hook takes the
tracer state and the two sinks and returns new ones; the trace file gets
one record per hook, `'\n'.join(lines) + '\n'`.

Some inputs belong to the host and are parameters:
- the environment;
- the `enabled` flag;
- `realpath` and the "is a regular file" test;
- the plugin module's directory;
- the result of `which('funq')`;
- `realpath("screenshot-errors")`.

`configure`'s calls to its collaborators are recorded as a list of steps.

Three behaviours of the code worth knowing:
- The hooks do not guard against out-of-order calls. A second `beforeTest`
  overwrites the stored name. `afterTest` always reports the stored name,
  and with none stored it prints `None`; an out-of-order call raises
  no error.
- The messages are the French ones in the code: ``Démarrage de test `<id>` ``
  and ``Fin de test `<name>` ``.
- The trace-tests option has no fallback. A value set but empty is kept as
  the empty string, and then tracing is off.

## Model

| member | source | states |
|---|---|---|
| AssertNaming.Pep8 | py/funq/noseplugin.py:31-34 | the alias has no ASCII capital and is longer than the name by exactly its number of capitals |
| AssertNaming.Pep8Char | py/funq/noseplugin.py:34 | one capital becomes `'_'` plus its lower-case letter; any other character is kept |
| AssertNaming.Pep8Append | py/funq/noseplugin.py:31-34 | the transform works character by character: it distributes over concatenation |
| AssertNaming.Pep8NoUpper | py/funq/noseplugin.py:31-34 | a name without capitals is left unchanged |
| AssertNaming.Pep8OneCapital | py/funq/noseplugin.py:31-34 | a single capital between lower-case words becomes an underscore and the lower-case letter |
| AssertNaming.AssertEqualAlias | py/funq/noseplugin.py:31-34 | `assertEqual` maps to `assert_equal` |
| AssertNaming.Unpep8Pep8 | py/funq/noseplugin.py:33-34 | round trip: for names without `'_'`, the original name can be recovered from its alias |
| AssertNaming.Pep8Injective | py/funq/noseplugin.py:43-46 | two different qualifying names never share an alias, so no installed alias overwrites another |
| AssertNaming.AliasShape | py/funq/noseplugin.py:43-45 | a qualifying name's alias still starts with `assert`, has no capitals, and is longer by its number of capitals |
| AssertNaming.Pep8Underscore | py/funq/noseplugin.py:31-34 | on a name without underscores, the alias contains an underscore exactly when the name contains an ASCII capital |
| AssertNaming.AliasRequalifies | py/funq/noseplugin.py:43-46 | the alias of a name that passes the filter passes it again exactly when it equals the name, so an alias that differs from its name (it holds an underscore) is never aliased in turn |
| AssertNaming.InstallAliases | py/funq/noseplugin.py:43-46 | afterwards the namespace holds its old names plus exactly the aliases of the names that start with `assert` and have no `'_'`; each alias is bound to its own method; every other binding is unchanged |
| AssertNaming.InstallIdempotent | py/funq/noseplugin.py:43-46 | installing the aliases a second time changes nothing |
| Options.EnvFallback | py/funq/noseplugin.py:70 | leaving out `env` or passing an empty mapping resolves every option as passing the process environment itself would; with a non-empty `env` the process environment has no effect |
| Options.PathJoin | py/funq/noseplugin.py:84-85 | the alias-file default is the module directory, then one `/` unless the directory already ends with one, then `aliases-gkits.conf` |
| Options.Defaults | py/funq/noseplugin.py:74-114 | each registered default is the environment variable when set and non-empty, else its fallback (`funq.conf`, `default`, the alias file, `which('funq')`, `utf-8`, the absolute `screenshot-errors`); the trace-tests default is the variable as it is, unset or empty included |
| Options.Resolve | py/funq/noseplugin.py:69-117 | each option is the command-line value if given, else the environment variable if set and non-empty, else the fixed default (`funq.conf`, `default`, the alias file, `which('funq')`, `utf-8`, the absolute `screenshot-errors`); the trace-tests option has no fallback |
| Plugin.Configure | py/funq/noseplugin.py:119-132 | disabled: nothing happens. Enabled: the assertions are patched first and the conf path is resolved. It fails, naming the resolved path, exactly when that path is not a file; the failure comes before registration, before the trace settings are stored and before screenshots are set up. On success the steps come in source order |
| Plugin.ConfiguredTracing | py/funq/noseplugin.py:130-140 | once configured, tracing is on exactly when the resolved trace-tests option is set and non-empty |
| Plugin.MissingConfMessage | py/funq/noseplugin.py:126 | the exception message is `Fichier de conf funq manquant: ` and the path in backquotes; the path can be read back from it |
| Tracer.Separator | py/funq/noseplugin.py:17 | the separator is 70 `'-'` characters |
| Tracer.MessageWithSep | py/funq/noseplugin.py:15-18 | exactly three lines: the separator, the message unchanged, the separator |
| Tracer.CurrentTestNameLifecycle | py/funq/noseplugin.py:63-67 | `current_test_name()` is None before any test, the test's id once `beforeTest` has run, and None again after `afterTest` |
| Tracer.StartMessage | py/funq/noseplugin.py:136 | the start message is the prefix ``Démarrage de test ` ``, the name and one closing backquote, so its length is the prefix's plus the name's plus one |
| Tracer.StartMessageReadBack | py/funq/noseplugin.py:136 | the start message begins with the prefix, and the name is read back unchanged between the prefix and the closing backquote |
| Tracer.EndMessage | py/funq/noseplugin.py:148 | the end message is the prefix ``Fin de test ` ``, how `%s` renders the stored name, and a closing backquote; with no name stored it is ``Fin de test `None` `` |
| Tracer.EndMessageReadBack | py/funq/noseplugin.py:148 | the end message for a stored name begins with the prefix, and the name is read back unchanged between the prefix and the closing backquote |
| Tracer.Emit | py/funq/noseplugin.py:137-144 | the log gets the lines in order, appended to what it held. The trace file gets exactly one `'\n'.join(lines) + '\n'` record when tracing is on, and is untouched otherwise |
| Tracer.BeforeTest | py/funq/noseplugin.py:134-144 | `current_test_name()` then returns the test id. The outputs are exactly those of emitting the start block: the log gains separator, start message, separator; with tracing on the old file is kept and `Record` of the start block is appended; otherwise the file is unchanged |
| Tracer.AfterTest | py/funq/noseplugin.py:147-157 | the outputs are exactly those of emitting the end block for the STORED name: separator, end message, separator in the log; with tracing on, its record appended after the old file. Afterwards the stored name is None |
| Tracer.AfterTestIgnoresArgument | py/funq/noseplugin.py:147-148 | the end block does not depend on the `test` argument, only on the stored name |
| Tracer.OutOfOrderCalls | py/funq/noseplugin.py:134-157 | a second `beforeTest` overwrites the stored name; `afterTest` with nothing stored logs ``Fin de test `None` `` |
| Tracer.RecordLines | py/funq/noseplugin.py:143-144 | a record ends in a newline, and splitting the rest on newlines gives back the block's three lines |
| Tracer.SessionState | py/funq/noseplugin.py:134-157 | after N well-formed before/after pairs the trace settings are unchanged and no test name is stored |
| Tracer.SessionLog | py/funq/noseplugin.py:134-157 | N well-formed pairs log exactly a start and an end block per test, in call order |
| Tracer.SessionFile | py/funq/noseplugin.py:137-157 | with tracing on, N pairs append exactly the 2N records in call order; with tracing off the file is unchanged |
| Tracer.SessionRecordOrder | py/funq/noseplugin.py:134-157 | with tracing on, the file grows by 2N records: record 2i starts test i and record 2i+1 ends that same test |
| Tracer.SessionCounts | py/funq/noseplugin.py:137-156 | N pairs add 6N log lines, and 2N trace records when tracing is on (none otherwise) |
| Hook.AtoiDecimal | server/libFunq/funq.cpp:68 | the parse reads back the decimal writing of any number, even with non-digit text after it |
| Hook.Atoi | server/libFunq/funq.cpp:68 | the parse is never positive after a leading `-` (past white space) and never negative otherwise; it is 0 when no digit follows the optional white space and sign |
| Hook.SelectPort | server/libFunq/funq.cpp:65-72 | the port is always positive. It is 9999 when `FUNQ_PORT` is unset or parses to a value that is not positive; otherwise it is the parsed value |
| Hook.PortFromEnvironment | server/libFunq/funq.cpp:65-72 | a positive number written in `FUNQ_PORT` is the chosen port; its negation, an empty value, or a value starting with neither a digit, white space nor `+` keeps 9999 |
| Hook.ActiveHookPlayer | server/libFunq/funq.cpp:59-74 | the hook is built with the requested mode and the port `SelectPort` chooses: positive, the parsed `FUNQ_PORT` when that is positive, 9999 otherwise or when unset |
| Hook.Activate | server/libFunq/funq.cpp:106-115 | with checking on, it starts only if `FUNQ_ACTIVATION` is exactly `"1"`; with checking off, it always starts. The mode is PICK iff `FUNQ_MODE_PICK` is exactly `"1"`. The port is the one `SelectPort` chooses |
| Hook.DeclinedActivation | server/libFunq/funq.cpp:106-112 | when `FUNQ_ACTIVATION` is not `"1"`, a checked activation does nothing and an unchecked one still starts |
| Hook.ActivateDependsOnlyOnFunqVariables | server/libFunq/funq.cpp:106-115 | two environments that agree on `FUNQ_ACTIVATION`, `FUNQ_MODE_PICK` and `FUNQ_PORT` give the same outcome |
| Hook.CheckedMatchesUnchecked | server/libFunq/funq.cpp:106-112 | with `FUNQ_ACTIVATION` equal to `"1"`, checking activation makes no difference |

## Left out

- The nose `Plugin` base class: option registration, help strings, and deciding `enabled` (a parameter here).
- `ConfigParser` parsing: the conf file is recorded as read, not parsed.
- `ApplicationRegistry.register_from_conf`, `screenshoter.init` and `which`. They are recorded as steps, or taken as host values. Their own failures, which would propagate out of `configure`, are not modelled.
- The module-level registry and its `config`/`multi_config` exports: these are bindings, with no logic in them.
- `os.path.realpath`, `os.path.isfile` and the module directory: these are parameters.
- Trace-file I/O. There is no modelled `codecs.open`, no text encoding (the encoding is stored, not applied), no open or write errors, and no `unicode(..., 'utf-8')` decoding of the test id.
- The `logging` module: the log is the sequence of lines sent to it at info level.
- Runtime patching of `nose.tools` and the behaviour of the `unittest` assert methods. The names `dir()` lists are an input, and each alias is bound to the original method's name.
- Everything Qt in funq.cpp: `funqInit`, `onNewConnection`, the TCP server and `Player`, `Pick`, `registerPick`/`unRegisterPick`, `hook`/`eventFilter`, `moveToThread`, timers, `deleteLater`, the native-dialog flag and the singleton pointer. These are event-loop, network and injection plumbing.
- Hook.SelectPort: `atoi` is modelled over unbounded integers. C leaves overflow undefined, and the model does not cover that case. It also does not model what `QTcpServer::listen` does with a port above 65535.
- Options.PathJoin: only the POSIX `os.path.join` is modelled (separator `/`); on Windows, where the library also runs, Python joins with a backslash, and that variant is not modelled.
