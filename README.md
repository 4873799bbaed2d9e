# py-openbar core, modelled in Dafny

openbar is a small framework for running HTTP backends and frontends as Unix
daemons. This project models its core:

- **Request parameters** (`params.dfy`, module `Params`). A `Parameters` object wraps the
  decoded JSON body of a request. Each accessor (`get`, `get_list`, `any`, `string`,
  `integer`, `string_list`, `integer_list`, `timestamp`) pops one parameter, applies the
  default or the "missing parameter" error, and runs a validator. Leaving the `with` block
  rejects whatever was not consumed. A failure is the HTTP 400 error the handler answers
  with, modelled as a (code, message) pair.
- **Configuration** (`config.dfy`, module `Config`). `parse` walks the sections of an INI
  file that has already been read. It dispatches each section on its `type`, and
  `parse_frontend` / `parse_backend` / `parse_database` validate the required keys and the
  integer port before storing the section in the module table `_CONFIG`. The accessors
  `get`, `backend`, `database` and `frontend` read that table.
- **Routes** (`routes.dfy`, module `Routes`). `register` records a setup function and the
  versions it overrides under a (version, name) key in `_ROUTES`. `_setup_route` runs the
  setups of the overridden versions before the route's own. `install_routes` mounts one
  application per key, in sorted key order, at `/<version>/<name>/`. An application is
  modelled as the trace of setup calls made on it.
- **Daemon** (`run.dfy`, module `Run`). `_Daemon` covers:
  - the pid file (`_get_pid`, `_write_pid`);
  - the `ps aux` scan of `_is_running`, and `status`;
  - the privilege drop;
  - the identity checks and step order of `_start` / `start`;
  - the signal-and-poll loop of `_kill`, with `stop` and `kill`;
  - the action dispatch of `run_bottle`.
- **Python built-ins** (`pytext.dfy`, module `PyText`). The built-ins the core relies on are
  spelled out: `int()` on text (the surrounding whitespace it strips, which leaves out the separators
  U+001C..U+001F that `str.isspace()` counts; a sign; PEP 515 underscores),
  `"%i"`, `str.split()`, `str.split(sep)`, `split(marker)[-1]`, `os.path.dirname`,
  `", ".join` and string ordering.

The operating system is a value `Os`. Every daemon operation takes the current `Os` and
returns the new one. `Os` holds:

- the readable files and the unreadable paths;
- the successive outputs of `ps aux`, one per probe;
- the uid, the pid and the pid left after daemonizing;
- the password and group databases;
- whether `setresgid`/`setresuid` work;
- the ordered trace of observable effects.

The effects recorded in that trace are: stderr reports, `atexit` registrations, directory
creation, file writes, credential changes, setup hooks, the fork, log setup, the entry
point and signals.

The model follows the code, including these behaviours:

- a pid file that does not hold an integer makes `_get_pid` raise ValueError, rather than
  being treated as a stale record;
- a foreground start never writes the pid file;
- `stop` on a daemon that is not running reports and returns normally;
- `restart` exits with status 1, without starting, when the stop times out;
- `status()` is true for every answer of `_is_running`, so it never reports "not running";
- the `status` action of `run_bottle` looks `status` up on the `daemon` factory function
  and so raises AttributeError;
- `parse` rejects a section of type "database" even though `parse_database` exists;
- a pid file path without a directory part makes `_write_pid` fail in `os.makedirs('')`,
  after the removal at exit has been registered.

## Model

| member | source | states |
|---|---|---|
| Params.ElementsCheck | openbar/params.py:71-73 | the element loop accepts iff every element is accepted, and otherwise reports the verdict of the first rejected element |
| Params.ValidateOutcome | openbar/params.py:53-63 | a value the validator accepts is returned unchanged; success iff there is no validator or it accepts; every HTTP failure has code 400 |
| Params.IntegerCheckAccepts | openbar/params.py:87-95 | `integer` accepts exactly the ints, booleans included, inside the inclusive bounds; a non-int is a TypeError and an out-of-range int a ValueError |
| Params.TimestampRejectsNegative | openbar/params.py:109-110 | `timestamp` rejects every negative integer as "too small" |
| Params.BooleanPassesAsInteger | openbar/params.py:89-90 | True and False pass `integer` when the bounds admit 0 and 1 |
| Params.StringCheckAccepts | openbar/params.py:79-85 | `string` accepts exactly the strings, restricted to `choice` when one is given |
| Params.ListCheckAccepts | openbar/params.py:65-74 | `get_list` accepts iff the value is a list, is no longer than `maxlen` and every element passes; it rejects a non-list first, then an over-long list |
| Params.IntegerListAccepts | openbar/params.py:103-107 | `integer_list` accepts iff the list is short enough and every element is an int |
| Params.StringListAccepts | openbar/params.py:97-101 | `string_list` accepts iff the list is short enough and every element is a string |
| Params.Without | openbar/params.py:46 | removing a key from the insertion-ordered key list keeps exactly the other keys and keeps them distinct |
| Params.Parameters.Get | openbar/params.py:45-63 | pops the parameter; absent: the default, or "missing parameter" when mandatory; present: the validated value or its error |
| Params.Parameters.GetList | openbar/params.py:65-74 | `get` with the list check installed |
| Params.Parameters.Any | openbar/params.py:76-77 | `get` with the caller's validator |
| Params.Parameters.String | openbar/params.py:79-85 | a present value is returned iff it is a string within `choice`; the exact TypeError and ValueError messages |
| Params.Parameters.Integer | openbar/params.py:87-95 | a present value is returned iff it is an int within the bounds; the exact "expect integer", "too small" and "too large" messages |
| Params.Parameters.StringList | openbar/params.py:97-101 | a present value is returned iff it is a short enough list of strings |
| Params.Parameters.IntegerList | openbar/params.py:103-107 | a present value is returned iff it is a short enough list of ints |
| Params.Parameters.Timestamp | openbar/params.py:109-110 | a present value is returned iff it is a non-negative int; a negative one is "too small" |
| Params.Parameters.Exit | openbar/params.py:40-43 | a normal exit fails iff parameters remain, with "unexpected parameter: " and the remaining keys joined by ", " in insertion order |
| Config.RequiredKeys | openbar/config.py:52 | every kind of section requires a port |
| Config.FirstMissing | openbar/config.py:52-54 | none is missing iff every required key is present; otherwise it names the first absent key in list order |
| Config.CollectedContents | openbar/config.py:51-55 | the table built by the key loop holds exactly the required keys, each with its string |
| Config.ValidatedContents | openbar/config.py:50-62 | a validated section holds exactly the required keys, extra keys dropped, with strings, except the port, which holds the parsed integer |
| Config.ValidatedRejects | openbar/config.py:52-60 | a section is rejected for its first missing key in list order; with all keys present, it is rejected iff the port is not an integer |
| Config.ParseSection | openbar/config.py:50-62 | the key loop plus the port conversion computes `Validated` |
| Config.CollectKeys | openbar/config.py:52-55 | the loop stops at the first missing key, otherwise it collects every key |
| Config.ParseAcceptsFrontendAndBackendOnly | openbar/config.py:35-47 | the section loop succeeds iff no section is rejected; after success every non-DEFAULT section has type "frontend" or "backend" |
| Config.ParseFailureKeepsPrefix | openbar/config.py:35-47 | on failure the rejected section is the first rejected one, and the table is exactly what the sections before it made |
| Config.ParseTouchesOnlySectionNames | openbar/config.py:35-47 | `parse` adds only names of sections it read, and entries under other names are untouched |
| Config.ParseStoresEachSection | openbar/config.py:35-47 | after a successful parse with distinct names, each non-DEFAULT section is stored under its name with its validated keys |
| Config.SectionKey | openbar/config.py:97-110 | the accessor succeeds iff the section and key exist; a missing section is InvalidConfiguration, a missing key a KeyError |
| Config.FrontendNeedsSectionNamedFrontend | openbar/config.py:107-110 | after a successful parse, `frontend(key)` succeeds iff the file has a section NAMED "frontend" holding the key |
| Config.FrontendSectionFound | openbar/config.py:107-110 | with a section named "frontend", `frontend(key)` finds exactly its keys |
| Config.FrontendSectionAbsent | openbar/config.py:107-110 | without a section named "frontend", `frontend(key)` fails |
| Config.Configuration.StoreSection | openbar/config.py:50-62 | stores the validated section under its name iff it validates; on failure the table is unchanged |
| Config.Configuration.ParseFrontend | openbar/config.py:50-62 | the 11 frontend keys and an integer port; stores iff valid |
| Config.Configuration.ParseBackend | openbar/config.py:65-77 | the 8 backend keys and an integer port; stores iff valid |
| Config.Configuration.ParseDatabase | openbar/config.py:80-92 | the 5 database keys and an integer port; stores iff valid |
| Config.Configuration.Parse | openbar/config.py:23-47 | for the sections `configparser` yields (DEFAULT first, names distinct): a file holding only DEFAULT is rejected; otherwise the outcome and the final table are those of the section loop |
| Config.ParseNeverStoresDefault | openbar/config.py:35-47 | the DEFAULT section is never stored: the table holds "DEFAULT" after the section loop iff it did before |
| Config.ParseThenGet | openbar/config.py:94-95 | after a successful `parse` into the empty table, `get(name)` finds a section iff the file has a non-DEFAULT section of that name, and returns that section's validated keys |
| Config.Configuration.Backend | openbar/config.py:97-100 | succeeds iff a section named "backend" holds the key, and then returns that key's value; a missing section is InvalidConfiguration, a missing key KeyError |
| Config.Configuration.Database | openbar/config.py:102-105 | succeeds iff a section named "database" holds the key, and then returns that key's value; a missing section is InvalidConfiguration, a missing key KeyError |
| Config.Configuration.Frontend | openbar/config.py:107-110 | succeeds iff a section named "frontend" holds the key, and then returns that key's value; a missing section is InvalidConfiguration, a missing key KeyError |
| Routes.SetupRoute | openbar/routes.py:31-35 | an unregistered key is a KeyError; a successful trace ends with the route's own setup and only holds calls of registered routes with the same name and their own setups |
| Routes.SetupParents | openbar/routes.py:33-34 | the parent loop only holds calls of registered routes with the same name |
| Routes.SetupRouteAlone | openbar/routes.py:31-35 | a route that overrides nothing runs only its own setup |
| Routes.SetupRouteMonotone | openbar/routes.py:31-35 | once the stack is deep enough to succeed, more stack gives the same trace |
| Routes.RouteTraceOrigin | openbar/routes.py:31-35 | every call in a trace comes from a successful setup of its route at no greater depth |
| Routes.OwnSetupOnceLast | openbar/routes.py:31-35 | the overridden setups all run before the route's own setup, which runs exactly once, last |
| Routes.ParentsIncludeEach | openbar/routes.py:33-34 | the parent loop contains the whole trace of each parent |
| Routes.SelfInParents | openbar/routes.py:31-35 | a route overriding its own version has its own call among its parents' calls |
| Routes.SelfOverrideFails | openbar/routes.py:31-35 | a route that lists its own version among its overrides can never be set up |
| Routes.RouteTraceClosed | openbar/routes.py:31-35 | a successful trace covers every version transitively overridden, so one unregistered version anywhere makes it fail |
| Routes.KeyLessIrreflexive | openbar/routes.py:38 | tuple order is irreflexive |
| Routes.KeyLessTransitive | openbar/routes.py:38 | tuple order is transitive |
| Routes.KeyLessTotal | openbar/routes.py:38 | distinct keys are comparable |
| Routes.LeastExists | openbar/routes.py:38 | a non-empty key set has a least key |
| Routes.SortedListingExists | openbar/routes.py:38 | every key set has an ascending listing |
| Routes.SortedListingUnique | openbar/routes.py:38 | a key set has only one ascending listing |
| Routes.SortKeys | openbar/routes.py:38 | `sorted` returns the unique ascending listing of the registered keys |
| Routes.MountPointInjective | openbar/routes.py:39 | for versions and names without "/", two keys share a mount point iff they are the same key |
| Routes.VersionEndsAtSecondSlash | openbar/routes.py:39 | in a mount point the second "/" comes right after a version without "/" |
| Routes.InstallAllDistinctPoints | openbar/routes.py:37-43 | for distinct keys without "/", `install_routes` mounts every application at a point of its own |
| Routes.InstallAllMountsEach | openbar/routes.py:37-43 | when every route can be set up, one app per key is mounted, in key order, at its mount point, holding that key's setup trace |
| Routes.InstallAllFailsAtFirst | openbar/routes.py:37-43 | installation fails iff some key's setup fails, and then with the first failing key's error |
| Routes.Root.MountApp | openbar/routes.py:43 | `root.mount` appends one mount |
| Routes.Registry.Register | openbar/routes.py:45-50 | stores the setup and the normalised override under (version, name), replacing an earlier entry |
| Routes.Registry.SetupRouteOn | openbar/routes.py:31-35 | the trace of `_setup_route`; on success its own setup is last and appears once |
| Routes.Registry.InstallRoutes | openbar/routes.py:37-43 | mounts exactly the apps of the sorted keys, stopping at the first failing setup and keeping the mounts already made |
| Routes.Registry.MountAll | openbar/routes.py:38-43 | the loop over the keys adds the mounts of `InstallAll` and returns its outcome |
| Run.ReadPid | openbar/run.py:175-181 | a missing file (or empty path) is None; an unreadable one raises IOError; a file that is not an integer raises ValueError; otherwise the integer read |
| Run.PidRecordRoundTrip | openbar/run.py:94 | reading back the record `_write_pid` writes yields the pid written |
| Run.ListedLine | openbar/run.py:188-204 | the process is listed iff some line has the user as its first field, the pid as its second and the tag as a field; with no user nothing is listed |
| Run.ScanPs | openbar/run.py:190-204 | the line loop returns true iff the process is listed |
| Run.WritePidFrame | openbar/run.py:79-94 | `_write_pid` only appends effects and keeps the process identity |
| Run.WritePidRefuses | openbar/run.py:80-85 | exits with status 1 iff the recorded process runs, and then only reports it |
| Run.WritePidWrites | openbar/run.py:79-94 | returns iff the record is readable, its process does not run and the path has a directory; it then writes the current pid and emits the stale warning, the removal at exit, the directory creation and the write |
| Run.WritePidOutcome | openbar/run.py:79-94 | after `_write_pid` returns, reading the pid file yields the current pid |
| Run.MemberGids | openbar/run.py:99-100 | the gids of the groups listing the user |
| Run.SupplementaryGroups | openbar/run.py:99-101 | the groups set are the user's member groups plus its primary group |
| Run.GetPwUid | openbar/run.py:146 | None (KeyError) iff no entry has the uid; otherwise an entry with that uid |
| Run.GetPwNam | openbar/run.py:148 | None (KeyError) iff no entry has the name; otherwise an entry with that name |
| Run.AfterForkOutcome | openbar/run.py:155-167 | once forked, `_start` exits with status 1 iff a pid file is configured and its process runs; when it returns it wrote the record, opened the log and ran the entry point |
| Run.AfterForkRefuses | openbar/run.py:158-160 | with a pid file configured, the forked `_start` exits with status 1 iff the recorded process runs |
| Run.AfterForkWrites | openbar/run.py:158-167 | with a pid file configured, a forked `_start` that returns wrote the current pid, opened the log and ran the entry point |
| Run.AfterForkNoRecord | openbar/run.py:158-167 | without a pid file, the forked `_start` never exits and writes no file |
| Run.LaunchRefusesOnlyAfterFork | openbar/run.py:155-167 | the launch can exit with status 1 only after forking |
| Run.StartInnerRefuses | openbar/run.py:141-151 | `_start` exits with status 1 having only reported iff no user is set and it runs as root, or a user is set and it runs neither as root nor as that user |
| Run.LaunchForeground | openbar/run.py:162-167 | a foreground launch emits the credential changes, the setup hook, the debug log and the entry point, and writes no file |
| Run.LaunchBackground | openbar/run.py:155-161 | a background launch emits the credential changes, the setup hook, the fork, the pid record when configured, the log and the entry point |
| Run.LaunchForegroundOrder | openbar/run.py:162-167 | a foreground launch is in step order, ends with the entry point and never forks |
| Run.LaunchBackgroundOrder | openbar/run.py:155-161 | a background launch is in step order, forks, and writes the forked pid iff a pid file is configured |
| Run.LaunchOrder | openbar/run.py:155-167 | when `_start` returns its steps came in order; it forks and writes the pid record only in the background, and the record holds the forked pid |
| Run.StartInnerLaunches | openbar/run.py:141-167 | `_start` returns only past the identity checks, with the launch's outcome |
| Run.StartRefusesRunning | openbar/run.py:245-260 | `start` exits with status 1 before any other step when a pid file is set and its process runs; by default it daemonizes |
| Run.WaitOutcome | openbar/run.py:226-231 | the wait returns or exits with status 1, only reads `ps`, and polls at most 101 times |
| Run.WaitTimesOut | openbar/run.py:226-231 | the wait exits with status 1 iff every remaining poll up to ten seconds lists the process |
| Run.ListedThroughEach | openbar/run.py:227 | being listed through n polls is being listed at each of the n + 1 probes |
| Run.WaitGivesUp | openbar/run.py:226-231 | a full wait gives up iff each of its 101 polls lists the process |
| Run.SignalOnlyRunning | openbar/run.py:212-224 | `_kill` sends exactly the requested signal to the recorded pid iff the record exists and its process runs; otherwise it reports and returns, or raises on an unreadable record |
| Run.SignalThenWait | openbar/run.py:224-231 | once the signal is sent, `_kill(sig, True)` is the polling loop |
| Run.StopWaits | openbar/run.py:233-237 | with the process running, `stop` gives up iff each of the 101 polls after the signal lists it |
| Run.StopTimesOut | openbar/run.py:233-237 | `stop` exits, always with status 1, iff the recorded process runs and each of the 101 polls after the signal lists it |
| Run.Daemon.IsRunning | openbar/run.py:183-204 | computes `_is_running`; with a pid given it never raises; without a user it never answers true |
| Run.Daemon.Status | openbar/run.py:206-210 | `status()` is true whenever the record can be read, and raises iff it cannot |
| Run.Daemon.WritePid | openbar/run.py:79-94 | computes `_write_pid` |
| Run.Daemon.DropPriv | openbar/run.py:96-107 | nothing unless root; as root: the supplementary groups, then the gid, then the uid, through setres* when available, and the new uid |
| Run.Daemon.StartInner | openbar/run.py:141-167 | computes `_start` and leaves the callbacks alone |
| Run.Daemon.Start | openbar/run.py:245-260 | computes `start`; the callbacks are installed iff it proceeds to `_start` |
| Run.Daemon.SignalProcess | openbar/run.py:212-231 | computes `_kill` |
| Run.Daemon.Wait | openbar/run.py:226-231 | the polling loop computes the wait specification |
| Run.Daemon.Stop | openbar/run.py:233-237 | SIGTERM and wait; exits with status 1 iff the process is listed by each of the 101 polls after the signal |
| Run.Daemon.Kill | openbar/run.py:239-243 | SIGKILL without waiting; never exits and probes `ps` at most once |
| Run.RunBottle | openbar/run.py:329-342 | dispatches the action; status raises AttributeError; an unknown action raises ValueError; restart does not start when stop does not return |
| PyText.FormatIntLineRoundTrip | openbar/run.py:94 | `int("%i\n" % n) == n` for every integer |
| PyText.ParseIntRejectsLeadingSeparator | openbar/run.py:175-181 | `int()` does not strip U+001C..U+001F, so a pid file starting with one of them is not an integer |
| PyText.DigitGroupStartsWithDigit | openbar/run.py:175-181 | a digit group `int()` accepts starts with a decimal digit |
| PyText.FormatNatDigits | openbar/run.py:94 | the decimal text of a natural number is a digit group whose value is that number |
| PyText.FieldsAreWords | openbar/run.py:191 | every field of `split()` is non-empty and holds no whitespace |
| PyText.AfterLastSuffix | openbar/run.py:188 | `split('openbar-')[-1]` is a suffix of the name that contains no "openbar-" |
| PyText.AfterLastPreceded | openbar/run.py:188 | the tag is the whole name, or it is preceded by "openbar-" |
| PyText.AfterLastIsLastPiece | openbar/run.py:188 | the tag is the last piece of the split at "openbar-" |
| PyText.DirNameEmpty | openbar/run.py:93 | `os.path.dirname(p)` is empty iff p contains no "/" |
| PyText.StrLessIrreflexive | openbar/routes.py:38 | string order is irreflexive |
| PyText.StrLessTransitive | openbar/routes.py:38 | string order is transitive |
| PyText.StrLessTotal | openbar/routes.py:38 | distinct strings are comparable |

## Left out

- Logging (`openbar.log`), `setproctitle` and `print` are not modelled. Opening the log is one `OpenLog` effect.
- The mechanics of `_daemonize` are not modelled: the double fork, `setsid`, the parent's exit, fork failures and the SIGTERM handler. Daemonizing is one effect, after which the process has the pid `forkedPid`. The `DAEMONIZE == 2` branch is unreachable, since the constant is 1.
- Run.Daemon.DropPriv: a `setresuid` failure after `setresgid` succeeded is not modelled. Either both set* calls work, or both fall back.
- Run.ReadPid: a `pidfile` of None is not modelled. The empty path stands for "no pid file", as the truth test in `start` and `_start` treats it.
- Run.WritePidSpec: `os.makedirs` errors other than the empty path are not modelled, since the filesystem's permissions are not part of the world.
- Run.SignalSpec: an error from `os.kill` is not modelled; the signal is always delivered.
- Run.WaitSpec: time is modelled as 100 ms per poll, with the check made after each probe. The clock drift of real sleeps is out of scope.
- Run.RunBottleSpec: the server closure `_start` (package imports, bottle settings, session middleware, `bottle.run`) and `_stop` are not modelled. The entry point is the `RunEntry` effect.
- `run_backend` and `run_frontend` are not modelled, because they only read configuration values and call `run_bottle`. `_LogMiddleware` is not modelled either.
- Params.Parameters.Get: the validators are pure functions from a value to a verdict. Exceptions a validator raises other than TypeError and ValueError are one `OtherException`.
- `Parameters.float` is not modelled: it converts with floating point, which this model does not represent.
- `json`, `no_json` and `error` are not modelled: they build bottle HTTP responses. An error is the (code, message) pair it would carry.
- Config.Configuration.Parse: `configparser` reading the file, duplicate sections and options, DEFAULT inheritance and interpolation are not modelled. The input is the sequence of sections already read (`WellFormedFile`): DEFAULT first and every name once, since `configparser` in its default strict mode rejects a repeated section. `_CONFIGFILE` only appears in messages, and messages are modelled as reason values.
- Routes.SetupRoute: Python's recursion limit is the explicit `depth` parameter, and running out of it is `RecursionLimit`.
- Routes.Registry.InstallRoutes: what bottle does with two apps at one mount point is not modelled; `InstallAllDistinctPoints` shows this cannot happen when versions and names hold no "/". The `info` log line is not modelled.
- `int()` accepts only ASCII digits here, not other Unicode decimal digits.
