/**
 * The daemon lifecycle of `_Daemon`: the pid record, the `ps aux` scan that
 * decides whether the recorded process runs, the identity checks and the
 * privilege drop of `_start`, the step order of `start`, the signalling and
 * polling of `_kill`, and the action dispatch of `run_bottle`.
 *
 * The operating system is a value `Os` that every operation takes and
 * returns: the files, the successive outputs of `ps aux`, the process
 * identity, the user and group databases, and the trace of effects (stderr
 * reports, files written, credentials set, signals sent, callbacks run).
 */
module Run {
  import opened Common
  import PyText

  /** A password database entry. */
  datatype Passwd = Passwd(name: string, uid: int, gid: int)

  /** A group database entry. */
  datatype Group = Group(gid: int, members: seq<string>)

  datatype Signal = SigTerm | SigKill

  /** A callable handed to `start` (the entry point, the stop handler, the setup hook). */
  datatype Callback = Callback(name: string)

  /** What a daemon writes to stderr, with the values it formats into the message. */
  datatype Report =
    | AlreadyRunning(procname: string, pid: int)
    | StalePidFile(pidfile: string, pid: int)
    | RefuseSuperuser
    | CannotRunAs(username: string)
    | NotRunning(procname: string)
    | NotRunningStale(procname: string, pidfile: string, pid: int)

  /** An observable action on the system, in the order the daemon performs them. */
  datatype Effect =
    | Stderr(report: Report)
    | AtExitRemove(path: string)
    | MakeDirs(path: string)
    | WriteFile(path: string, contents: string)
    | SetGroups(gids: set<int>)
    | SetResGid(gid: int)
    | SetResUid(uid: int)
    | SetGid(gid: int)
    | SetUid(uid: int)
    | RunSetup(setup: Callback)
    | Daemonize
    | OpenLog(debug: bool)
    | RunEntry(entry: Callback)
    | Signalled(pid: int, signal: Signal)

  /**
   * The world the daemon runs in. `files` maps the readable files to their
   * contents and `unreadable` lists the paths whose opening fails with an
   * error other than "no such file". `ps` holds the successive outputs of
   * `ps aux`, of which `probes` have been read (the last one repeats).
   * `forkedPid` is the pid of the process left running after daemonizing.
   * `setresAvailable` tells whether setresgid/setresuid succeed.
   */
  datatype Os = Os(
    files: map<string, string>,
    unreadable: set<string>,
    ps: seq<string>,
    probes: nat,
    uid: int,
    pid: int,
    forkedPid: int,
    users: seq<Passwd>,
    groups: seq<Group>,
    setresAvailable: bool,
    effects: seq<Effect>)

  /** The exceptions the modelled code lets escape. */
  datatype Exc = ValueError | IOError | KeyError | FileNotFound | AttributeError | TypeError

  /** How an operation ends: it returns, calls `sys.exit(code)`, or raises. */
  datatype Status = Returned | Exit(code: int) | Raise(exc: Exc)

  /** The final status and world of an operation. */
  datatype Outcome = Outcome(status: Status, os: Os)

  /** The attributes of a daemon that never change after construction. */
  datatype Conf = Conf(procname: string, username: Option<string>, pidfile: string)

  /** The module constant `DAEMONIZE`. */
  const DAEMONIZE: int := 1

  /** `_kill` sleeps this long between two polls. */
  const PollMillis: int := 100

  /** `_kill` gives up waiting once this much time has elapsed. */
  const TimeoutMillis: int := 10000

  function Emit(os: Os, es: seq<Effect>): Os {
    os.(effects := os.effects + es)
  }

  // ---------------------------------------------------------------------------
  // The pid record

  /** `_get_pid`: None when the file does not exist, the integer it holds otherwise. */
  function ReadPid(os: Os, path: string): (r: Result<Option<int>, Exc>)
    ensures r == Success(None) <==> path == "" || (path !in os.unreadable && path !in os.files)
    ensures r == Failure(IOError) <==> path != "" && path in os.unreadable
    ensures r == Failure(ValueError) <==>
      path != "" && path !in os.unreadable && path in os.files && PyText.ParseInt(os.files[path]).None?
    ensures r.Success? && r.value.Some? ==> path in os.files && PyText.ParseInt(os.files[path]) == Some(r.value.value)
  {
    if path == "" then Success(None)
    else if path in os.unreadable then Failure(IOError)
    else if path !in os.files then Success(None)
    else
      match PyText.ParseInt(os.files[path])
      case None => Failure(ValueError)
      case Some(n) => Success(Some(n))
  }

  /** The record `_write_pid` writes: "%i\n" of the pid. */
  function PidRecord(pid: int): string {
    PyText.FormatInt(pid) + "\n"
  }

  /** Reading back a pid record yields the pid that was written. */
  lemma PidRecordRoundTrip(os: Os, path: string, pid: int)
    requires path != "" && path !in os.unreadable
    ensures ReadPid(os.(files := os.files[path := PidRecord(pid)]), path) == Success(Some(pid))
  {
    PyText.FormatIntLineRoundTrip(pid);
  }

  // ---------------------------------------------------------------------------
  // The ps scan

  /** The name `_is_running` looks for: what follows the last "openbar-" in the process name. */
  function ProcTag(procname: string): string {
    PyText.AfterLast(procname, "openbar-")
  }

  /** One line of `ps aux` names the process: owner, pid and the tag as a whole field. */
  predicate LineMatches(line: string, username: Option<string>, pid: int, tag: string) {
    var parts := PyText.Fields(line);
    && |parts| > 1
    && username == Some(parts[0])
    && PyText.ParseInt(parts[1]) == Some(pid)
    && tag in parts
  }

  /** One of `lines` names the process. */
  predicate AnyLineMatches(lines: seq<string>, username: Option<string>, pid: int, tag: string) {
    |lines| > 0 && (LineMatches(lines[0], username, pid, tag) || AnyLineMatches(lines[1..], username, pid, tag))
  }

  /** Some line of the `ps aux` output names the process. */
  predicate Listed(text: string, username: Option<string>, pid: int, tag: string) {
    AnyLineMatches(PyText.SplitOn(text, '\n'), username, pid, tag)
  }

  lemma {:induction false} AnyLineMatchesSome(lines: seq<string>, username: Option<string>, pid: int, tag: string)
    ensures AnyLineMatches(lines, username, pid, tag) <==> exists line :: line in lines && LineMatches(line, username, pid, tag)
  {
    if |lines| > 0 {
      AnyLineMatchesSome(lines[1..], username, pid, tag);
      assert lines == [lines[0]] + lines[1..];
    }
  }

  /**
   * The process is listed exactly when some line of the output, split at
   * newlines, has the daemon's user as its first field, the pid as its second
   * and the tag as one of its fields; without a user nothing is listed.
   */
  lemma ListedLine(text: string, username: Option<string>, pid: int, tag: string)
    ensures Listed(text, username, pid, tag) <==>
      exists line :: line in PyText.SplitOn(text, '\n') && LineMatches(line, username, pid, tag)
    ensures username.None? ==> !Listed(text, username, pid, tag)
  {
    AnyLineMatchesSome(PyText.SplitOn(text, '\n'), username, pid, tag);
  }

  /** The line loop of `_is_running`. */
  method ScanPs(text: string, username: Option<string>, pid: int, tag: string) returns (found: bool)
    ensures found <==> Listed(text, username, pid, tag)
  {
    var lines := PyText.SplitOn(text, '\n');
    var i := 0;
    while i < |lines|
      invariant 0 <= i <= |lines|
      invariant AnyLineMatches(lines, username, pid, tag) == AnyLineMatches(lines[i..], username, pid, tag)
    {
      assert lines[i..][1..] == lines[i + 1..];
      var parts := PyText.Fields(lines[i]);
      if |parts| > 0 && username == Some(parts[0]) && |parts| > 1 {
        var ppid := PyText.ParseInt(parts[1]);
        if ppid == Some(pid) && tag in parts {
          return true;
        }
      }
      i := i + 1;
    }
    return false;
  }

  /** The `ps aux` output read by the next probe. */
  function PsAt(os: Os, n: nat): string {
    if os.ps == [] then "" else if n < |os.ps| then os.ps[n] else os.ps[|os.ps| - 1]
  }

  function Probed(os: Os): Os {
    os.(probes := os.probes + 1)
  }

  /** The next `ps aux` output names the daemon's process `pid`. */
  predicate ListedNow(c: Conf, pid: int, os: Os) {
    Listed(PsAt(os, os.probes), c.username, pid, ProcTag(c.procname))
  }

  /** The `ps aux` output `k` probes ahead names the daemon's process `pid`. */
  predicate ListedAt(c: Conf, pid: int, os: Os, k: nat) {
    Listed(PsAt(os, os.probes + k), c.username, pid, ProcTag(c.procname))
  }

  datatype Probe = Probe(result: Result<bool, Exc>, os: Os)

  /** `_is_running(pid)`: with no pid given, the recorded one; no record means not running. */
  function IsRunningSpec(c: Conf, pid: Option<int>, os: Os): Probe {
    var recorded: Result<Option<int>, Exc> := if pid.Some? then Success(pid) else ReadPid(os, c.pidfile);
    match recorded
    case Failure(e) => Probe(Failure(e), os)
    case Success(None) => Probe(Success(false), os)
    case Success(Some(n)) => Probe(Success(ListedNow(c, n, os)), Probed(os))
  }

  /** The recorded process is running. */
  predicate RecordRunning(c: Conf, os: Os) {
    var recorded := ReadPid(os, c.pidfile);
    recorded.Success? && recorded.value.Some? && ListedNow(c, recorded.value.value, os)
  }

  // ---------------------------------------------------------------------------
  // _write_pid

  /**
   * `_write_pid`: refuses when the recorded process runs, warns when the
   * record is stale, registers the removal at exit, creates the directory
   * (`os.makedirs('')` fails when the path has no directory part) and writes
   * the current pid.
   */
  function WritePidSpec(c: Conf, os: Os): Outcome {
    match ReadPid(os, c.pidfile)
    case Failure(e) => Outcome(Raise(e), os)
    case Success(recorded) =>
      if recorded.Some? && ListedNow(c, recorded.value, os) then
        Outcome(Exit(1), Emit(Probed(os), [Stderr(AlreadyRunning(c.procname, recorded.value))]))
      else
        var os1 := if recorded.Some? then Emit(Probed(os), [Stderr(StalePidFile(c.pidfile, recorded.value))]) else os;
        var os2 := Emit(os1, [AtExitRemove(c.pidfile)]);
        var dir := PyText.DirName(c.pidfile);
        if dir == "" then Outcome(Raise(FileNotFound), os2)
        else
          var record := PidRecord(os2.pid);
          Outcome(Returned, Emit(os2.(files := os2.files[c.pidfile := record]), [MakeDirs(dir), WriteFile(c.pidfile, record)]))
  }

  /** The order of the steps of `_start`, each effect ranked by the step that causes it. */
  function Stage(e: Effect): nat {
    match e
    case SetGroups(_) => 1
    case SetResGid(_) => 1
    case SetResUid(_) => 1
    case SetGid(_) => 1
    case SetUid(_) => 1
    case RunSetup(_) => 2
    case Daemonize => 3
    case Stderr(_) => 4
    case AtExitRemove(_) => 4
    case MakeDirs(_) => 4
    case WriteFile(_, _) => 4
    case OpenLog(_) => 5
    case RunEntry(_) => 6
    case Signalled(_, _) => 7
  }

  predicate Ordered(es: seq<Effect>) {
    forall i, j :: 0 <= i < j < |es| ==> Stage(es[i]) <= Stage(es[j])
  }

  predicate AllStage(es: seq<Effect>, k: nat) {
    forall e :: e in es ==> Stage(e) == k
  }

  /** `o` extends the effects of `os`, which it keeps as a prefix. */
  predicate Extends(os: Os, o: Os) {
    |o.effects| >= |os.effects| && o.effects[..|os.effects|] == os.effects
  }

  function NewEffects(os: Os, o: Os): seq<Effect>
    requires Extends(os, o)
  {
    o.effects[|os.effects|..]
  }

  /** The warning `_write_pid` gives about a stale record, if any. */
  function StaleWarning(c: Conf, os: Os): seq<Effect> {
    var recorded := ReadPid(os, c.pidfile);
    if recorded.Success? && recorded.value.Some? then [Stderr(StalePidFile(c.pidfile, recorded.value.value))] else []
  }

  /** The effects of a `_write_pid` that returns: all of them belong to the pid-file step. */
  function WritePidEffects(c: Conf, os: Os): (es: seq<Effect>)
    ensures AllStage(es, 4) && WriteFile(c.pidfile, PidRecord(os.pid)) in es
  {
    StaleWarning(c, os) + [AtExitRemove(c.pidfile), MakeDirs(PyText.DirName(c.pidfile)), WriteFile(c.pidfile, PidRecord(os.pid))]
  }

  lemma Appended(os: Os, o: Os, es: seq<Effect>)
    requires o.effects == os.effects + es
    ensures Extends(os, o) && NewEffects(os, o) == es
  {
  }

  /** `_write_pid` only appends effects and keeps the identity of the process. */
  lemma WritePidFrame(c: Conf, os: Os)
    ensures var o := WritePidSpec(c, os);
      && Extends(os, o.os)
      && o.os.pid == os.pid && o.os.forkedPid == os.forkedPid && o.os.uid == os.uid
      && o.os.unreadable == os.unreadable
  {
  }

  /**
   * `_write_pid` exits with status 1 exactly when the recorded process runs,
   * and then only reports it, without writing.
   */
  lemma WritePidRefuses(c: Conf, os: Os)
    ensures WritePidSpec(c, os).status == Exit(1) <==> RecordRunning(c, os)
    ensures RecordRunning(c, os) ==>
      WritePidSpec(c, os).os == Emit(Probed(os), [Stderr(AlreadyRunning(c.procname, ReadPid(os, c.pidfile).value.value))])
  {
  }

  /**
   * `_write_pid` returns exactly when the record can be read, its process
   * does not run and the path has a directory part; it then warns about a
   * stale record, registers the removal and writes the current pid.
   */
  lemma WritePidWrites(c: Conf, os: Os)
    ensures WritePidSpec(c, os).status == Returned <==>
      ReadPid(os, c.pidfile).Success? && !RecordRunning(c, os) && PyText.DirName(c.pidfile) != ""
    ensures WritePidSpec(c, os).status == Returned ==>
      && WritePidSpec(c, os).os.files == os.files[c.pidfile := PidRecord(os.pid)]
      && WritePidSpec(c, os).os.effects == os.effects + WritePidEffects(c, os)
  {
  }

  /**
   * When `_write_pid` returns, reading the pid file back yields the current
   * pid, and every effect belongs to the pid-file step.
   */
  lemma WritePidOutcome(c: Conf, os: Os)
    requires WritePidSpec(c, os).status == Returned
    ensures var o := WritePidSpec(c, os);
      && Extends(os, o.os)
      && ReadPid(o.os, c.pidfile) == Success(Some(os.pid))
      && AllStage(NewEffects(os, o.os), 4)
      && WriteFile(c.pidfile, PidRecord(os.pid)) in NewEffects(os, o.os)
  {
    var o := WritePidSpec(c, os);
    WritePidFrame(c, os);
    WritePidWrites(c, os);
    PyText.DirNameEmpty(c.pidfile);
    PidRecordRoundTrip(os, c.pidfile, os.pid);
    assert o.os.files == os.(files := os.files[c.pidfile := PidRecord(os.pid)]).files;
    Appended(os, o.os, WritePidEffects(c, os));
  }

  // ---------------------------------------------------------------------------
  // _drop_priv

  /** The gids of the groups that list `name` among their members. */
  function MemberGids(name: string, groups: seq<Group>): (r: set<int>)
    ensures forall g :: g in r <==> exists i :: 0 <= i < |groups| && groups[i].gid == g && name in groups[i].members
  {
    if groups == [] then {}
    else
      var rest := MemberGids(name, groups[1..]);
      assert forall i :: 1 <= i < |groups| ==> groups[i] == groups[1..][i - 1];
      if name in groups[0].members then {groups[0].gid} + rest else rest
  }

  /** The supplementary groups `_drop_priv` installs: the user's groups and its primary group, without duplicates. */
  function SupplementaryGroups(pw: Passwd, groups: seq<Group>): (r: set<int>)
    ensures forall g :: g in r <==>
      g == pw.gid || exists i :: 0 <= i < |groups| && groups[i].gid == g && pw.name in groups[i].members
  {
    MemberGids(pw.name, groups) + {pw.gid}
  }

  /** The credential changes of `_drop_priv` when it runs as root. */
  function PrivEffects(pw: Passwd, os: Os): (es: seq<Effect>)
    ensures AllStage(es, 1)
  {
    var ids := if os.setresAvailable then [SetResGid(pw.gid), SetResUid(pw.uid)] else [SetGid(pw.gid), SetUid(pw.uid)];
    [SetGroups(SupplementaryGroups(pw, os.groups))] + ids
  }

  /**
   * `_drop_priv`: nothing unless running as root; then the supplementary
   * groups, then the gid, then the uid, through setresgid/setresuid when they
   * work and setgid/setuid otherwise.
   */
  function DropPrivSpec(pw: Passwd, os: Os): Os {
    if os.uid != 0 then os else Emit(os.(uid := pw.uid), PrivEffects(pw, os))
  }

  // ---------------------------------------------------------------------------
  // _start and start

  /** `pwd.getpwuid(uid)`: the first entry with that uid; None stands for the KeyError. */
  function GetPwUid(users: seq<Passwd>, uid: int): (r: Option<Passwd>)
    ensures r.None? <==> forall i :: 0 <= i < |users| ==> users[i].uid != uid
    ensures r.Some? ==> r.value in users && r.value.uid == uid
  {
    if users == [] then None
    else if users[0].uid == uid then Some(users[0])
    else
      var r := GetPwUid(users[1..], uid);
      assert forall i :: 1 <= i < |users| ==> users[i] == users[1..][i - 1];
      r
  }

  /** `pwd.getpwnam(name)`: the first entry with that name; None stands for the KeyError. */
  function GetPwNam(users: seq<Passwd>, name: string): (r: Option<Passwd>)
    ensures r.None? <==> forall i :: 0 <= i < |users| ==> users[i].name != name
    ensures r.Some? ==> r.value in users && r.value.name == name
  {
    if users == [] then None
    else if users[0].name == name then Some(users[0])
    else
      var r := GetPwNam(users[1..], name);
      assert forall i :: 1 <= i < |users| ==> users[i] == users[1..][i - 1];
      r
  }

  /** The status, the `pwd` attribute and the world after `_start`. */
  datatype Started = Started(status: Status, pwd: Option<Passwd>, os: Os)

  /** `self.run()`: calling an unset entry point raises TypeError. */
  function RunEntrySpec(run: Option<Callback>, pwd: Option<Passwd>, os: Os): Started {
    if run.None? then Started(Raise(TypeError), pwd, os)
    else Started(Returned, pwd, Emit(os, [RunEntry(run.value)]))
  }

  /** The entry `_start` looks up: the current user's, or the configured user's. */
  function Identity(c: Conf, os: Os): Option<Passwd> {
    if c.username.None? then GetPwUid(os.users, os.uid) else GetPwNam(os.users, c.username.value)
  }

  function SetupEffects(setup: Option<Callback>): (es: seq<Effect>)
    ensures AllStage(es, 2)
  {
    if setup.Some? then [RunSetup(setup.value)] else []
  }

  /** The process left after daemonizing: the forked pid, and the fork recorded. */
  function Forked(os: Os): Os {
    Emit(os.(pid := os.forkedPid), [Daemonize])
  }

  /**
   * `_start` once the identity checks passed with entry `pw`: the privilege
   * drop, the setup hook, and in the background the fork, the pid record
   * (when a pid file is configured) and the log, or in the foreground the
   * debug log; last the entry point.
   */
  function LaunchSpec(c: Conf, pw: Passwd, setup: Option<Callback>, run: Option<Callback>, foreground: bool, os: Os): Started {
    var os2 := Emit(DropPrivSpec(pw, os), SetupEffects(setup));
    if foreground then
      RunEntrySpec(run, Some(pw), Emit(os2, [OpenLog(true)]))
    else AfterFork(c, pw, run, Forked(os2))
  }

  /** The background part of `_start` once forked: the pid record when a pid file is configured, the log, the entry point. */
  function AfterFork(c: Conf, pw: Passwd, run: Option<Callback>, os: Os): Started {
    var written := if c.pidfile != "" then WritePidSpec(c, os) else Outcome(Returned, os);
    if written.status != Returned then Started(written.status, Some(pw), written.os)
    else RunEntrySpec(run, Some(pw), Emit(written.os, [OpenLog(false)]))
  }

  /** Once forked, with a pid file configured: only effects are added, and the pid record decides whether it exits. */
  lemma AfterForkRefuses(c: Conf, pw: Passwd, run: Option<Callback>, os: Os)
    requires c.pidfile != ""
    ensures var s := AfterFork(c, pw, run, os);
      && Extends(os, s.os)
      && (s.status == Exit(1) <==> RecordRunning(c, os))
  {
    var s := AfterFork(c, pw, run, os);
    var written := WritePidSpec(c, os);
    WritePidFrame(c, os);
    WritePidRefuses(c, os);
    if written.status == Returned {
      var tail := if run.Some? then [OpenLog(false), RunEntry(run.value)] else [OpenLog(false)];
      Appended(written.os, s.os, tail);
      ExtendsChain(os, written.os, s.os);
    }
  }

  /** Once forked, with a pid file configured, a `_start` that returns wrote the record, opened the log and ran the entry point. */
  lemma AfterForkWrites(c: Conf, pw: Passwd, run: Option<Callback>, os: Os)
    requires c.pidfile != "" && AfterFork(c, pw, run, os).status == Returned
    ensures var s := AfterFork(c, pw, run, os);
      && run.Some?
      && s.os.files == os.files[c.pidfile := PidRecord(os.pid)]
      && Extends(os, s.os)
      && NewEffects(os, s.os) == WritePidEffects(c, os) + [OpenLog(false), RunEntry(run.value)]
  {
    var s := AfterFork(c, pw, run, os);
    assert WritePidSpec(c, os).status == Returned;
    WritePidWrites(c, os);
    Appended(os, s.os, WritePidEffects(c, os) + [OpenLog(false), RunEntry(run.value)]);
  }

  /** Once forked, without a pid file: the log and the entry point. */
  lemma AfterForkNoRecord(c: Conf, pw: Passwd, run: Option<Callback>, os: Os)
    requires c.pidfile == ""
    ensures var s := AfterFork(c, pw, run, os);
      && Extends(os, s.os)
      && s.status != Exit(1)
      && s.os.files == os.files
      && (s.status == Returned ==> run.Some? && NewEffects(os, s.os) == [OpenLog(false), RunEntry(run.value)])
  {
    var s := AfterFork(c, pw, run, os);
    if run.Some? {
      Appended(os, s.os, [OpenLog(false), RunEntry(run.value)]);
    } else {
      Appended(os, s.os, [OpenLog(false)]);
    }
  }

  /**
   * Once forked, `_start` only adds effects; it exits with status 1 exactly
   * when it must write a pid record whose process runs; when it returns it
   * wrote the record (if configured), opened the log and ran the entry point.
   */
  lemma AfterForkOutcome(c: Conf, pw: Passwd, run: Option<Callback>, os: Os)
    ensures var s := AfterFork(c, pw, run, os);
      && Extends(os, s.os)
      && (s.status == Exit(1) <==> c.pidfile != "" && RecordRunning(c, os))
    ensures var s := AfterFork(c, pw, run, os);
      s.status == Returned ==>
        && run.Some?
        && s.os.files == (if c.pidfile != "" then os.files[c.pidfile := PidRecord(os.pid)] else os.files)
        && NewEffects(os, s.os) == (if c.pidfile != "" then WritePidEffects(c, os) else []) + [OpenLog(false), RunEntry(run.value)]
  {
    if c.pidfile != "" {
      AfterForkRefuses(c, pw, run, os);
      if AfterFork(c, pw, run, os).status == Returned {
        AfterForkWrites(c, pw, run, os);
      }
    } else {
      AfterForkNoRecord(c, pw, run, os);
      if run.Some? {
        assert [] + [OpenLog(false), RunEntry(run.value)] == [OpenLog(false), RunEntry(run.value)];
      }
    }
  }

  /**
   * `_start(foreground)`: refuses to run as root without a configured user,
   * looks up the entry, refuses to run as a user other than the configured
   * one unless root, and launches.
   */
  function StartInnerSpec(c: Conf, pwd: Option<Passwd>, setup: Option<Callback>, run: Option<Callback>, foreground: bool, os: Os): Started {
    if c.username.None? && os.uid == 0 then
      Started(Exit(1), pwd, Emit(os, [Stderr(RefuseSuperuser)]))
    else
      var found := Identity(c, os);
      if found.None? then Started(Raise(KeyError), pwd, os)
      else if c.username.Some? && os.uid != 0 && os.uid != found.value.uid then
        Started(Exit(1), found, Emit(os, [Stderr(CannotRunAs(c.username.value))]))
      else LaunchSpec(c, found.value, setup, run, foreground, os)
  }

  /** The identity checks of `_start` refuse to go on. */
  predicate IdentityRefused(c: Conf, os: Os) {
    || (c.username.None? && os.uid == 0)
    || (c.username.Some? && GetPwNam(os.users, c.username.value).Some?
        && os.uid != 0 && os.uid != GetPwNam(os.users, c.username.value).value.uid)
  }

  lemma OrderedAppend(a: seq<Effect>, b: seq<Effect>, k: nat)
    requires Ordered(a) && (forall e :: e in a ==> Stage(e) <= k) && AllStage(b, k)
    ensures Ordered(a + b) && forall e :: e in a + b ==> Stage(e) <= k
  {
    forall i, j | 0 <= i < j < |a + b|
      ensures Stage((a + b)[i]) <= Stage((a + b)[j])
    {
      if j >= |a| {
        assert (a + b)[j] in b;
        if i < |a| {
          assert (a + b)[i] in a;
        } else {
          assert (a + b)[i] in b;
        }
      }
    }
  }

  lemma Regroup<T>(a: seq<T>, b: seq<T>, c: seq<T>, d: seq<T>, e: seq<T>, f: seq<T>)
    ensures (a + b) + c + (d + (e + f)) == a + b + c + d + e + f
  {
  }

  /** Effects grouped by the steps of `_start`, in step order, are in order. */
  lemma OrderedSteps(priv: seq<Effect>, setup: seq<Effect>, fork: seq<Effect>, record: seq<Effect>, log: seq<Effect>, entry: seq<Effect>)
    requires AllStage(priv, 1) && AllStage(setup, 2) && AllStage(fork, 3)
    requires AllStage(record, 4) && AllStage(log, 5) && AllStage(entry, 6)
    ensures Ordered(priv + setup + fork + record + log + entry)
  {
    OrderedAppend([], priv, 1);
    assert [] + priv == priv;
    OrderedAppend(priv, setup, 2);
    OrderedAppend(priv + setup, fork, 3);
    OrderedAppend(priv + setup + fork, record, 4);
    OrderedAppend(priv + setup + fork + record, log, 5);
    OrderedAppend(priv + setup + fork + record + log, entry, 6);
  }

  lemma ExtendsChain(a: Os, b: Os, c: Os)
    requires Extends(a, b) && Extends(b, c)
    ensures Extends(a, c) && NewEffects(a, c) == NewEffects(a, b) + NewEffects(b, c)
  {
    assert c.effects == b.effects + NewEffects(b, c);
    assert b.effects == a.effects + NewEffects(a, b);
  }

  /** The effects of `_start` before it forks or opens the log: credentials, then the setup hook. */
  function PrepareEffects(pw: Passwd, setup: Option<Callback>, os: Os): seq<Effect> {
    (if os.uid != 0 then [] else PrivEffects(pw, os)) + SetupEffects(setup)
  }

  /** The world before the fork: the credentials and the setup hook only add effects. */
  lemma Prepared(pw: Passwd, setup: Option<Callback>, os: Os)
    ensures var os2 := Emit(DropPrivSpec(pw, os), SetupEffects(setup));
      && Extends(os, os2) && NewEffects(os, os2) == PrepareEffects(pw, setup, os)
      && os2.files == os.files && os2.unreadable == os.unreadable && os2.forkedPid == os.forkedPid
  {
    var os2 := Emit(DropPrivSpec(pw, os), SetupEffects(setup));
    Appended(os, os2, PrepareEffects(pw, setup, os));
  }

  /** The world just after the fork. */
  lemma Forking(pw: Passwd, setup: Option<Callback>, os: Os)
    ensures var os3 := Forked(Emit(DropPrivSpec(pw, os), SetupEffects(setup)));
      && Extends(os, os3) && NewEffects(os, os3) == PrepareEffects(pw, setup, os) + [Daemonize]
      && os3.files == os.files && os3.unreadable == os.unreadable && os3.pid == os.forkedPid
  {
    var os2 := Emit(DropPrivSpec(pw, os), SetupEffects(setup));
    Prepared(pw, setup, os);
    Appended(os2, Forked(os2), [Daemonize]);
    ExtendsChain(os, os2, Forked(os2));
  }

  /**
   * The launch only adds effects; it can exit with status 1 only after
   * forking, when the pid record names a running process.
   */
  lemma LaunchRefusesOnlyAfterFork(c: Conf, pw: Passwd, setup: Option<Callback>, run: Option<Callback>, foreground: bool, os: Os)
    ensures var s := LaunchSpec(c, pw, setup, run, foreground, os);
      && Extends(os, s.os)
      && (s.status == Exit(1) ==> Daemonize in NewEffects(os, s.os))
  {
    var s := LaunchSpec(c, pw, setup, run, foreground, os);
    var os2 := Emit(DropPrivSpec(pw, os), SetupEffects(setup));
    var pre := PrepareEffects(pw, setup, os);
    if foreground {
      Prepared(pw, setup, os);
      var tail := if run.Some? then [OpenLog(true), RunEntry(run.value)] else [OpenLog(true)];
      Appended(os2, s.os, tail);
      ExtendsChain(os, os2, s.os);
    } else {
      var os3 := Forked(os2);
      Forking(pw, setup, os);
      AfterForkOutcome(c, pw, run, os3);
      ExtendsChain(os, os3, s.os);
      assert NewEffects(os, s.os)[|pre|] == Daemonize;
    }
  }

  /**
   * `_start` exits with status 1 having done nothing but report, exactly when
   * no user is configured and it runs as root, or a user is configured and it
   * runs neither as root nor as that user.
   */
  lemma StartInnerRefuses(c: Conf, pwd: Option<Passwd>, setup: Option<Callback>, run: Option<Callback>, foreground: bool, os: Os)
    ensures var s := StartInnerSpec(c, pwd, setup, run, foreground, os);
      && Extends(os, s.os)
      && (s.status == Exit(1) && (forall e :: e in NewEffects(os, s.os) ==> e.Stderr?) <==> IdentityRefused(c, os))
    ensures IdentityRefused(c, os) ==>
      StartInnerSpec(c, pwd, setup, run, foreground, os).os
        == Emit(os, [Stderr(if c.username.None? then RefuseSuperuser else CannotRunAs(c.username.value))])
  {
    var s := StartInnerSpec(c, pwd, setup, run, foreground, os);
    var found := Identity(c, os);
    if IdentityRefused(c, os) {
      Appended(os, s.os, [Stderr(if c.username.None? then RefuseSuperuser else CannotRunAs(c.username.value))]);
    } else if found.None? {
      Appended(os, s.os, []);
    } else {
      LaunchRefusesOnlyAfterFork(c, found.value, setup, run, foreground, os);
    }
  }

  /** The effects of a background launch, step by step, are in order and end with the entry point. */
  lemma BackgroundSteps(priv: seq<Effect>, setup: seq<Effect>, record: seq<Effect>, entry: Callback)
    requires AllStage(priv, 1) && AllStage(setup, 2) && AllStage(record, 4)
    ensures var all := priv + setup + [Daemonize] + (record + [OpenLog(false), RunEntry(entry)]);
      && Ordered(all) && all[|all| - 1] == RunEntry(entry)
      && all[|priv + setup|] == Daemonize
      && forall e :: e in record ==> e in all
  {
    Regroup(priv, setup, [Daemonize], record, [OpenLog(false)], [RunEntry(entry)]);
    assert [OpenLog(false)] + [RunEntry(entry)] == [OpenLog(false), RunEntry(entry)];
    OrderedSteps(priv, setup, [Daemonize], record, [OpenLog(false)], [RunEntry(entry)]);
  }

  /** A foreground launch that returns: credentials, setup hook, debug log, entry point; no file written. */
  lemma LaunchForeground(c: Conf, pw: Passwd, setup: Option<Callback>, run: Option<Callback>, os: Os)
    requires LaunchSpec(c, pw, setup, run, true, os).status == Returned
    ensures var s := LaunchSpec(c, pw, setup, run, true, os);
      && run.Some? && Extends(os, s.os) && s.os.files == os.files
      && NewEffects(os, s.os) == PrepareEffects(pw, setup, os) + [OpenLog(true), RunEntry(run.value)]
  {
    var s := LaunchSpec(c, pw, setup, run, true, os);
    var os2 := Emit(DropPrivSpec(pw, os), SetupEffects(setup));
    Prepared(pw, setup, os);
    Appended(os2, s.os, [OpenLog(true), RunEntry(run.value)]);
    ExtendsChain(os, os2, s.os);
  }

  /**
   * A background launch that returns: credentials, setup hook, fork, pid
   * record (when a pid file is configured), log, entry point.
   */
  lemma LaunchBackground(c: Conf, pw: Passwd, setup: Option<Callback>, run: Option<Callback>, os: Os)
    requires LaunchSpec(c, pw, setup, run, false, os).status == Returned
    ensures var s := LaunchSpec(c, pw, setup, run, false, os);
      var os3 := Forked(Emit(DropPrivSpec(pw, os), SetupEffects(setup)));
      && run.Some? && Extends(os, s.os)
      && s.os.files == (if c.pidfile != "" then os.files[c.pidfile := PidRecord(os.forkedPid)] else os.files)
      && NewEffects(os, s.os) == PrepareEffects(pw, setup, os) + [Daemonize]
           + ((if c.pidfile != "" then WritePidEffects(c, os3) else []) + [OpenLog(false), RunEntry(run.value)])
  {
    var s := LaunchSpec(c, pw, setup, run, false, os);
    var os3 := Forked(Emit(DropPrivSpec(pw, os), SetupEffects(setup)));
    Forking(pw, setup, os);
    AfterForkOutcome(c, pw, run, os3);
    ExtendsChain(os, os3, s.os);
  }

  /** The effects of a foreground launch, step by step, are in order, end with the entry point and hold no fork. */
  lemma ForegroundSteps(priv: seq<Effect>, setup: seq<Effect>, entry: Callback)
    requires AllStage(priv, 1) && AllStage(setup, 2)
    ensures var all := priv + setup + [OpenLog(true), RunEntry(entry)];
      && Ordered(all) && all[|all| - 1] == RunEntry(entry) && Daemonize !in all
  {
    assert priv + setup + [OpenLog(true), RunEntry(entry)] == priv + setup + [] + [] + [OpenLog(true)] + [RunEntry(entry)];
    OrderedSteps(priv, setup, [], [], [OpenLog(true)], [RunEntry(entry)]);
  }

  lemma LaunchForegroundOrder(c: Conf, pw: Passwd, setup: Option<Callback>, run: Option<Callback>, os: Os)
    requires LaunchSpec(c, pw, setup, run, true, os).status == Returned
    ensures var s := LaunchSpec(c, pw, setup, run, true, os);
      && run.Some? && Extends(os, s.os) && s.os.files == os.files
      && Ordered(NewEffects(os, s.os))
      && NewEffects(os, s.os)[|NewEffects(os, s.os)| - 1] == RunEntry(run.value)
      && Daemonize !in NewEffects(os, s.os)
  {
    LaunchForeground(c, pw, setup, run, os);
    ForegroundSteps(if os.uid != 0 then [] else PrivEffects(pw, os), SetupEffects(setup), run.value);
  }

  lemma LaunchBackgroundOrder(c: Conf, pw: Passwd, setup: Option<Callback>, run: Option<Callback>, os: Os)
    requires LaunchSpec(c, pw, setup, run, false, os).status == Returned
    ensures var s := LaunchSpec(c, pw, setup, run, false, os);
      && run.Some? && Extends(os, s.os)
      && Ordered(NewEffects(os, s.os))
      && NewEffects(os, s.os)[|NewEffects(os, s.os)| - 1] == RunEntry(run.value)
      && Daemonize in NewEffects(os, s.os)
      && (c.pidfile != "" ==>
            && s.os.files == os.files[c.pidfile := PidRecord(os.forkedPid)]
            && WriteFile(c.pidfile, PidRecord(os.forkedPid)) in NewEffects(os, s.os))
      && (c.pidfile == "" ==> s.os.files == os.files)
  {
    LaunchBackground(c, pw, setup, run, os);
    var priv := if os.uid != 0 then [] else PrivEffects(pw, os);
    var os3 := Forked(Emit(DropPrivSpec(pw, os), SetupEffects(setup)));
    var w := if c.pidfile != "" then WritePidEffects(c, os3) else [];
    BackgroundSteps(priv, SetupEffects(setup), w, run.value);
    if c.pidfile != "" {
      assert os3.pid == os.forkedPid;
      assert WriteFile(c.pidfile, PidRecord(os.forkedPid)) in w;
    }
  }

  /**
   * When `_start` returns, its steps came in order: privileges, setup,
   * (fork, pid record,) log, entry point. In the background it forks and
   * writes the pid record, holding the forked pid, exactly when a pid file
   * is configured; in the foreground it neither forks nor writes a file.
   */
  lemma LaunchOrder(c: Conf, pw: Passwd, setup: Option<Callback>, run: Option<Callback>, foreground: bool, os: Os)
    requires LaunchSpec(c, pw, setup, run, foreground, os).status == Returned
    ensures var s := LaunchSpec(c, pw, setup, run, foreground, os);
      && Extends(os, s.os)
      && Ordered(NewEffects(os, s.os))
      && run.Some? && NewEffects(os, s.os)[|NewEffects(os, s.os)| - 1] == RunEntry(run.value)
      && (foreground ==> Daemonize !in NewEffects(os, s.os) && s.os.files == os.files)
      && (!foreground ==> Daemonize in NewEffects(os, s.os))
      && (!foreground && c.pidfile != "" ==>
            && s.os.files == os.files[c.pidfile := PidRecord(os.forkedPid)]
            && WriteFile(c.pidfile, PidRecord(os.forkedPid)) in NewEffects(os, s.os))
      && (!foreground && c.pidfile == "" ==> s.os.files == os.files)
  {
    if foreground {
      LaunchForegroundOrder(c, pw, setup, run, os);
    } else {
      LaunchBackgroundOrder(c, pw, setup, run, os);
    }
  }

  /** `_start` returns only past the identity checks, with the launch's outcome. */
  lemma StartInnerLaunches(c: Conf, pwd: Option<Passwd>, setup: Option<Callback>, run: Option<Callback>, foreground: bool, os: Os)
    requires StartInnerSpec(c, pwd, setup, run, foreground, os).status == Returned
    ensures !IdentityRefused(c, os) && Identity(c, os).Some?
    ensures StartInnerSpec(c, pwd, setup, run, foreground, os) == LaunchSpec(c, Identity(c, os).value, setup, run, foreground, os)
  {
  }

  /** `start` goes on to `_start` unless a pid file is configured and the recorded process runs. */
  predicate StartProceeds(c: Conf, os: Os) {
    c.pidfile == "" || IsRunningSpec(c, None, os).result == Success(false)
  }

  /**
   * `start(start, stop, setup, foreground)`: refuses when the recorded
   * process runs, then hands over to `_start`; the foreground flag defaults
   * to `not DAEMONIZE`.
   */
  function StartSpec(c: Conf, pwd: Option<Passwd>, entry: Callback, setup: Option<Callback>, foreground: Option<bool>, os: Os): Started {
    var fg := if foreground.Some? then foreground.value else DAEMONIZE == 0;
    if c.pidfile != "" then
      var probe := IsRunningSpec(c, None, os);
      match probe.result
      case Failure(e) => Started(Raise(e), pwd, probe.os)
      case Success(running) =>
        if running then
          Started(Exit(1), pwd, Emit(probe.os, [Stderr(AlreadyRunning(c.procname, ReadPid(os, c.pidfile).value.value))]))
        else StartInnerSpec(c, pwd, setup, Some(entry), fg, probe.os)
    else StartInnerSpec(c, pwd, setup, Some(entry), fg, os)
  }

  /**
   * `start` exits with status 1 before any other step when a pid file is
   * configured and the recorded process runs; by default it runs in the
   * background.
   */
  lemma StartRefusesRunning(c: Conf, pwd: Option<Passwd>, entry: Callback, setup: Option<Callback>, foreground: Option<bool>, os: Os)
    ensures var s := StartSpec(c, pwd, entry, setup, foreground, os);
      var recorded := ReadPid(os, c.pidfile);
      c.pidfile != "" && recorded.Success? && recorded.value.Some? && ListedNow(c, recorded.value.value, os) ==>
        && s.status == Exit(1) && s.pwd == pwd && s.os.files == os.files
        && s.os.effects == os.effects + [Stderr(AlreadyRunning(c.procname, recorded.value.value))]
    ensures StartProceeds(c, os) && foreground.None? ==>
      StartSpec(c, pwd, entry, setup, foreground, os)
        == StartInnerSpec(c, pwd, setup, Some(entry), false, if c.pidfile == "" then os else IsRunningSpec(c, None, os).os)
  {
  }

  // ---------------------------------------------------------------------------
  // _kill, stop and kill

  /** The polling loop of `_kill(sig, wait=True)` after `polls` sleeps of 100 ms. */
  function WaitSpec(c: Conf, pid: int, polls: nat, os: Os): Outcome
    requires polls * PollMillis <= TimeoutMillis
    decreases TimeoutMillis - polls * PollMillis
  {
    if !ListedNow(c, pid, os) then Outcome(Returned, Probed(os))
    else if polls * PollMillis >= TimeoutMillis then Outcome(Exit(1), Probed(os))
    else WaitSpec(c, pid, polls + 1, Probed(os))
  }

  /**
   * The wait gives up with status 1 exactly when the process is still listed
   * by every remaining probe up to the ten-second mark, and returns
   * otherwise; it only reads `ps`.
   */
  lemma {:induction false} WaitOutcome(c: Conf, pid: int, polls: nat, os: Os)
    requires polls <= 100
    ensures var o := WaitSpec(c, pid, polls, os);
      && (o.status == Returned || o.status == Exit(1))
      && o.os == os.(probes := o.os.probes)
      && os.probes < o.os.probes <= os.probes + 101 - polls
    decreases 100 - polls
  {
    if ListedNow(c, pid, os) && polls < 100 {
      WaitOutcome(c, pid, polls + 1, Probed(os));
    }
  }

  /** The next `n + 1` outputs of `ps aux` all name the daemon's process `pid`. */
  predicate ListedThrough(c: Conf, pid: int, os: Os, n: nat)
    decreases n
  {
    ListedNow(c, pid, os) && (n == 0 || ListedThrough(c, pid, Probed(os), n - 1))
  }

  /**
   * The wait gives up with status 1 exactly when the process is still listed
   * by every remaining probe up to the ten-second mark.
   */
  lemma {:induction false} WaitTimesOut(c: Conf, pid: int, polls: nat, os: Os)
    requires polls <= 100
    ensures WaitSpec(c, pid, polls, os).status == Exit(1) <==> ListedThrough(c, pid, os, 100 - polls)
    decreases 100 - polls
  {
    if ListedNow(c, pid, os) && polls < 100 {
      WaitTimesOut(c, pid, polls + 1, Probed(os));
    }
  }

  /** Probing once moves every later output one position closer. */
  lemma ListedAtShift(c: Conf, pid: int, os: Os, k: nat)
    ensures ListedAt(c, pid, Probed(os), k) == ListedAt(c, pid, os, k + 1)
  {
    assert Probed(os).probes + k == os.probes + (k + 1);
  }

  /** The probes counted by `ListedThrough`, one by one. */
  lemma {:induction false} ListedThroughEach(c: Conf, pid: int, os: Os, n: nat)
    ensures ListedThrough(c, pid, os, n) <==> forall k :: 0 <= k <= n ==> ListedAt(c, pid, os, k)
    decreases n
  {
    assert ListedNow(c, pid, os) == ListedAt(c, pid, os, 0) by {
      assert os.probes + 0 == os.probes;
    }
    if n > 0 {
      var next := Probed(os);
      ListedThroughEach(c, pid, next, n - 1);
      forall k | 0 <= k <= n - 1
        ensures ListedAt(c, pid, next, k) == ListedAt(c, pid, os, k + 1)
      {
        ListedAtShift(c, pid, os, k);
      }
      if forall k :: 0 <= k <= n ==> ListedAt(c, pid, os, k) {
        forall k | 0 <= k <= n - 1
          ensures ListedAt(c, pid, next, k)
        {
          assert ListedAt(c, pid, os, k + 1);
        }
      } else if ListedThrough(c, pid, os, n) {
        var k :| 0 <= k <= n && !ListedAt(c, pid, os, k);
        if k > 0 {
          assert !ListedAt(c, pid, next, k - 1);
        }
      }
    }
  }

  /**
   * `_kill(sig, wait)`: nothing to signal without a record or with a stale
   * one; otherwise the signal, then with `wait` the polling loop.
   */
  function SignalSpec(c: Conf, sig: Signal, wait: bool, os: Os): Outcome {
    match ReadPid(os, c.pidfile)
    case Failure(e) => Outcome(Raise(e), os)
    case Success(None) => Outcome(Returned, Emit(os, [Stderr(NotRunning(c.procname))]))
    case Success(Some(pid)) =>
      if !ListedNow(c, pid, os) then
        Outcome(Returned, Emit(Probed(os), [Stderr(NotRunningStale(c.procname, c.pidfile, pid))]))
      else
        var os1 := Emit(Probed(os), [Signalled(pid, sig)]);
        if wait then WaitSpec(c, pid, 0, os1) else Outcome(Returned, os1)
  }

  /**
   * `_kill` sends a signal, and only the one asked for to the recorded pid,
   * exactly when the record exists and its process runs; otherwise it reports
   * and returns normally (or raises when the record cannot be read).
   */
  lemma SignalOnlyRunning(c: Conf, sig: Signal, wait: bool, os: Os)
    ensures var o := SignalSpec(c, sig, wait, os);
      && Extends(os, o.os) && o.os.files == os.files
      && (RecordRunning(c, os) ==>
            NewEffects(os, o.os) == [Signalled(ReadPid(os, c.pidfile).value.value, sig)])
      && (!RecordRunning(c, os) ==>
            && (forall e :: e in NewEffects(os, o.os) ==> !e.Signalled?)
            && (ReadPid(os, c.pidfile).Success? ==> o.status == Returned)
            && (ReadPid(os, c.pidfile).Failure? ==> o.status == Raise(ReadPid(os, c.pidfile).error)))
  {
    var o := SignalSpec(c, sig, wait, os);
    if RecordRunning(c, os) {
      var pid := ReadPid(os, c.pidfile).value.value;
      var os1 := Emit(Probed(os), [Signalled(pid, sig)]);
      if wait {
        WaitOutcome(c, pid, 0, os1);
      }
      assert o.os.effects == os1.effects;
    }
  }

  /** Once the signal is sent, `_kill(sig, True)` is the polling loop. */
  lemma SignalThenWait(c: Conf, sig: Signal, os: Os)
    requires RecordRunning(c, os)
    ensures var pid := ReadPid(os, c.pidfile).value.value;
      SignalSpec(c, sig, true, os) == WaitSpec(c, pid, 0, Emit(Probed(os), [Signalled(pid, sig)]))
  {
  }

  lemma {:induction false} ListedShifted(c: Conf, pid: int, os: Os, later: Os, n: nat)
    requires later.ps == os.ps && later.probes == os.probes + 1
    ensures (forall k :: 0 <= k <= n ==> ListedAt(c, pid, later, k)) <==> (forall k :: 1 <= k <= n + 1 ==> ListedAt(c, pid, os, k))
  {
    forall k | 1 <= k <= n + 1
      ensures ListedAt(c, pid, later, k - 1) == ListedAt(c, pid, os, k)
    {
      assert PsAt(later, later.probes + (k - 1)) == PsAt(os, os.probes + k);
    }
    if forall k :: 1 <= k <= n + 1 ==> ListedAt(c, pid, os, k) {
      forall k | 0 <= k <= n
        ensures ListedAt(c, pid, later, k)
      {
        assert ListedAt(c, pid, os, k + 1);
      }
    }
  }

  /** A wait from the start gives up, with status 1, exactly when each of its 101 polls lists the process. */
  lemma WaitGivesUp(c: Conf, pid: int, os: Os)
    ensures var st := WaitSpec(c, pid, 0, os).status;
      && (st.Exit? ==> st.code == 1)
      && (st == Exit(1) <==> forall k :: 0 <= k <= 100 ==> ListedAt(c, pid, os, k))
  {
    WaitOutcome(c, pid, 0, os);
    WaitTimesOut(c, pid, 0, os);
    ListedThroughEach(c, pid, os, 100);
  }

  /** With the recorded process running, `stop()` gives up exactly when each of the 101 polls after the signal lists it. */
  lemma StopWaits(c: Conf, os: Os)
    requires RecordRunning(c, os)
    ensures var st := SignalSpec(c, SigTerm, true, os).status;
      && (st.Exit? ==> st.code == 1)
      && (st == Exit(1) <==> forall k :: 1 <= k <= 101 ==> ListedAt(c, ReadPid(os, c.pidfile).value.value, os, k))
  {
    var pid := ReadPid(os, c.pidfile).value.value;
    var os1 := Emit(Probed(os), [Signalled(pid, SigTerm)]);
    SignalThenWait(c, SigTerm, os);
    WaitGivesUp(c, pid, os1);
    ListedShifted(c, pid, os, os1, 100);
  }

  /**
   * `stop()` exits, always with status 1, exactly when the recorded process
   * runs and is still listed by each of the 101 polls after the signal.
   */
  lemma StopTimesOut(c: Conf, os: Os)
    ensures var st := SignalSpec(c, SigTerm, true, os).status;
      && (st.Exit? ==> st.code == 1)
      && (st == Exit(1) <==>
            RecordRunning(c, os) && forall k :: 1 <= k <= 101 ==> ListedAt(c, ReadPid(os, c.pidfile).value.value, os, k))
  {
    if RecordRunning(c, os) {
      StopWaits(c, os);
    } else {
      SignalOnlyRunning(c, SigTerm, true, os);
    }
  }

  // ---------------------------------------------------------------------------
  // The daemon object

  class Daemon {
    const procname: string
    const username: Option<string>
    const syslog: bool
    const pidfile: string
    var pwd: Option<Passwd>
    var run: Option<Callback>
    var setup: Option<Callback>
    var terminate: Option<Callback>

    constructor(procname: string, username: Option<string>, syslog: bool, pidfile: string)
      ensures this.procname == procname && this.username == username && this.syslog == syslog && this.pidfile == pidfile
      ensures pwd.None? && run.None? && setup.None? && terminate.None?
    {
      this.procname := procname;
      this.username := username;
      this.syslog := syslog;
      this.pidfile := pidfile;
      pwd := None;
      run := None;
      setup := None;
      terminate := None;
    }

    /** The constant attributes of this daemon. */
    function Attributes(): Conf {
      Conf(procname, username, pidfile)
    }

    /** `_is_running(pid)`. */
    method IsRunning(pid: Option<int>, os: Os) returns (r: Result<bool, Exc>, os': Os)
      ensures Probe(r, os') == IsRunningSpec(Attributes(), pid, os)
      ensures username.None? ==> r != Success(true)
      ensures pid.Some? ==> r.Success?
    {
      var recorded := pid;
      if recorded.None? {
        var read := ReadPid(os, pidfile);
        if read.Failure? {
          return Failure(read.error), os;
        }
        recorded := read.value;
      }
      if recorded.None? {
        return Success(false), os;
      }
      var tag := ProcTag(procname);
      var found := ScanPs(PsAt(os, os.probes), username, recorded.value, tag);
      ListedLine(PsAt(os, os.probes), username, recorded.value, tag);
      return Success(found), Probed(os);
    }

    /** `status()`: `_is_running() is not None`, which holds of every bool. */
    method Status(os: Os) returns (r: Result<bool, Exc>, os': Os)
      ensures r.Success? ==> r.value
      ensures r.Failure? <==> ReadPid(os, pidfile).Failure?
      ensures os' == IsRunningSpec(Attributes(), None, os).os
    {
      var running;
      running, os' := IsRunning(None, os);
      if running.Failure? {
        return Failure(running.error), os';
      }
      return Success(true), os';
    }

    /** `_write_pid()`. */
    method WritePid(os: Os) returns (st: Status, os': Os)
      ensures Outcome(st, os') == WritePidSpec(Attributes(), os)
    {
      var recorded := ReadPid(os, pidfile);
      if recorded.Failure? {
        return Raise(recorded.error), os;
      }
      os' := os;
      if recorded.value.Some? {
        var running;
        running, os' := IsRunning(recorded.value, os');
        if running == Success(true) {
          return Exit(1), Emit(os', [Stderr(AlreadyRunning(procname, recorded.value.value))]);
        }
        os' := Emit(os', [Stderr(StalePidFile(pidfile, recorded.value.value))]);
      }
      os' := Emit(os', [AtExitRemove(pidfile)]);
      var dir := PyText.DirName(pidfile);
      if dir == "" {
        return Raise(FileNotFound), os';
      }
      var record := PidRecord(os'.pid);
      os' := Emit(os'.(files := os'.files[pidfile := record]), [MakeDirs(dir), WriteFile(pidfile, record)]);
      return Returned, os';
    }

    /** `_drop_priv()`, once `_start` has looked up `pwd`. */
    method DropPriv(os: Os) returns (os': Os)
      requires pwd.Some?
      ensures os' == DropPrivSpec(pwd.value, os)
      ensures os.uid != 0 ==> os' == os
      ensures os.uid == 0 ==>
        && os'.uid == pwd.value.uid
        && |os'.effects| == |os.effects| + 3 && os'.effects[..|os.effects|] == os.effects
        && os'.effects[|os.effects|].SetGroups?
        && (forall g :: g in os'.effects[|os.effects|].gids <==>
              g == pwd.value.gid || exists i :: 0 <= i < |os.groups| && os.groups[i].gid == g && pwd.value.name in os.groups[i].members)
        && os'.effects[|os.effects| + 1] in {SetResGid(pwd.value.gid), SetGid(pwd.value.gid)}
        && os'.effects[|os.effects| + 2] in {SetResUid(pwd.value.uid), SetUid(pwd.value.uid)}
    {
      if os.uid != 0 {
        return os;
      }
      var pw := pwd.value;
      var groups := SupplementaryGroups(pw, os.groups);
      os' := Emit(os, [SetGroups(groups)]);
      if os.setresAvailable {
        os' := Emit(os', [SetResGid(pw.gid), SetResUid(pw.uid)]);
      } else {
        os' := Emit(os', [SetGid(pw.gid), SetUid(pw.uid)]);
      }
      os' := os'.(uid := pw.uid);
    }

    /** `_start(foreground)`. */
    method StartInner(foreground: bool, os: Os) returns (st: Status, os': Os)
      modifies this
      ensures Started(st, pwd, os') == StartInnerSpec(Attributes(), old(pwd), setup, run, foreground, os)
      ensures setup == old(setup) && run == old(run) && terminate == old(terminate)
    {
      if username.None? {
        if os.uid == 0 {
          return Exit(1), Emit(os, [Stderr(RefuseSuperuser)]);
        }
        var found := GetPwUid(os.users, os.uid);
        if found.None? {
          return Raise(KeyError), os;
        }
        pwd := found;
      } else {
        var found := GetPwNam(os.users, username.value);
        if found.None? {
          return Raise(KeyError), os;
        }
        pwd := found;
        if os.uid != 0 && os.uid != found.value.uid {
          return Exit(1), Emit(os, [Stderr(CannotRunAs(username.value))]);
        }
      }
      assert StartInnerSpec(Attributes(), old(pwd), setup, run, foreground, os)
        == LaunchSpec(Attributes(), pwd.value, setup, run, foreground, os);
      os' := DropPriv(os);
      if setup.Some? {
        os' := Emit(os', [RunSetup(setup.value)]);
      }
      assert os' == Emit(DropPrivSpec(pwd.value, os), SetupEffects(setup));
      if !foreground {
        os' := Emit(os'.(pid := os'.forkedPid), [Daemonize]);
        ghost var forked := os';
        if pidfile != "" {
          st, os' := WritePid(os');
          if st != Returned {
            return;
          }
        }
        assert Outcome(Returned, os') == if pidfile != "" then WritePidSpec(Attributes(), forked) else Outcome(Returned, forked);
        os' := Emit(os', [OpenLog(false)]);
      } else {
        os' := Emit(os', [OpenLog(true)]);
      }
      if run.None? {
        return Raise(TypeError), os';
      }
      return Returned, Emit(os', [RunEntry(run.value)]);
    }

    /** `start(entry, stop, setup, foreground)`. */
    method Start(entry: Callback, stop: Option<Callback>, setupHook: Option<Callback>, foreground: Option<bool>, os: Os)
      returns (st: Status, os': Os)
      modifies this
      ensures Started(st, pwd, os') == StartSpec(Attributes(), old(pwd), entry, setupHook, foreground, os)
      ensures StartProceeds(Attributes(), os) ==> run == Some(entry) && setup == setupHook && terminate == stop
      ensures !StartProceeds(Attributes(), os) ==> run == old(run) && setup == old(setup) && terminate == old(terminate)
    {
      var fg := if foreground.Some? then foreground.value else DAEMONIZE == 0;
      os' := os;
      if pidfile != "" {
        var running;
        running, os' := IsRunning(None, os);
        if running.Failure? {
          return Raise(running.error), os';
        }
        if running.value {
          var recorded := ReadPid(os', pidfile);
          return Exit(1), Emit(os', [Stderr(AlreadyRunning(procname, recorded.value.value))]);
        }
      }
      run := Some(entry);
      setup := setupHook;
      terminate := stop;
      st, os' := StartInner(fg, os');
    }

    /** `_kill(sig, wait)`. */
    method SignalProcess(sig: Signal, wait: bool, os: Os) returns (st: Status, os': Os)
      ensures Outcome(st, os') == SignalSpec(Attributes(), sig, wait, os)
    {
      var recorded := ReadPid(os, pidfile);
      if recorded.Failure? {
        return Raise(recorded.error), os;
      }
      if recorded.value.None? {
        return Returned, Emit(os, [Stderr(NotRunning(procname))]);
      }
      var pid := recorded.value.value;
      var running;
      running, os' := IsRunning(Some(pid), os);
      if running != Success(true) {
        return Returned, Emit(os', [Stderr(NotRunningStale(procname, pidfile, pid))]);
      }
      os' := Emit(os', [Signalled(pid, sig)]);
      if !wait {
        return Returned, os';
      }
      st, os' := Wait(pid, os');
    }

    /** The polling loop of `_kill`: every 100 ms, until the process is gone or ten seconds have passed. */
    method Wait(pid: int, os: Os) returns (st: Status, os': Os)
      ensures Outcome(st, os') == WaitSpec(Attributes(), pid, 0, os)
    {
      var polls: nat := 0;
      os' := os;
      while true
        invariant polls * PollMillis <= TimeoutMillis
        invariant WaitSpec(Attributes(), pid, 0, os) == WaitSpec(Attributes(), pid, polls, os')
        decreases TimeoutMillis - polls * PollMillis
      {
        var running;
        running, os' := IsRunning(Some(pid), os');
        if running != Success(true) {
          return Returned, os';
        }
        if polls * PollMillis >= TimeoutMillis {
          return Exit(1), os';
        }
        polls := polls + 1;
      }
    }

    /**
     * `stop()`: SIGTERM, then waits; it exits with status 1 exactly when the
     * signalled process is still listed by each of the 101 polls that cover
     * the ten seconds.
     */
    method Stop(os: Os) returns (st: Status, os': Os)
      ensures Outcome(st, os') == SignalSpec(Attributes(), SigTerm, true, os)
      ensures st.Exit? ==> st.code == 1
      ensures st == Exit(1) <==>
        RecordRunning(Attributes(), os) && forall k :: 1 <= k <= 101 ==> ListedAt(Attributes(), ReadPid(os, pidfile).value.value, os, k)
    {
      st, os' := SignalProcess(SigTerm, true, os);
      StopTimesOut(Attributes(), os);
    }

    /** `kill()`: SIGKILL without waiting; it never exits and reads `ps` at most once. */
    method Kill(os: Os) returns (st: Status, os': Os)
      ensures Outcome(st, os') == SignalSpec(Attributes(), SigKill, false, os)
      ensures !st.Exit?
      ensures os'.probes <= os.probes + 1
    {
      st, os' := SignalProcess(SigKill, false, os);
    }
  }

  // ---------------------------------------------------------------------------
  // run_bottle

  /** The actions `run_bottle` dispatches on. */
  function Actions(): set<string> {
    {"restart", "start", "stop", "status", "kill"}
  }

  /**
   * `run_bottle(action, ...)` on a fresh daemon: restart is stop then start
   * (start is not reached when stop exits or raises); status fails with
   * AttributeError, because it is looked up on the factory function; any
   * other action raises ValueError.
   */
  function RunBottleSpec(c: Conf, action: string, os: Os): Outcome {
    if action == "restart" then
      var stopped := SignalSpec(c, SigTerm, true, os);
      if stopped.status != Returned then stopped
      else
        var s := StartSpec(c, None, Callback("_start"), None, None, stopped.os);
        Outcome(s.status, s.os)
    else if action == "start" then
      var s := StartSpec(c, None, Callback("_start"), None, None, os);
      Outcome(s.status, s.os)
    else if action == "stop" then SignalSpec(c, SigTerm, true, os)
    else if action == "status" then Outcome(Raise(AttributeError), os)
    else if action == "kill" then SignalSpec(c, SigKill, false, os)
    else Outcome(Raise(ValueError), os)
  }

  /** `run_bottle(action, ...)`, whose keyword arguments configure the daemon. */
  method RunBottle(action: string, procname: string, username: Option<string>, pidfile: string, os: Os)
    returns (st: Status, os': Os)
    ensures Outcome(st, os') == RunBottleSpec(Conf(procname, username, pidfile), action, os)
    ensures action == "status" ==> st == Raise(AttributeError) && os' == os
    ensures action !in Actions() ==> st == Raise(ValueError) && os' == os
    ensures action == "restart" && SignalSpec(Conf(procname, username, pidfile), SigTerm, true, os).status != Returned ==>
      Outcome(st, os') == SignalSpec(Conf(procname, username, pidfile), SigTerm, true, os)
  {
    var runner := new Daemon(procname, username, true, pidfile);
    if action == "restart" {
      st, os' := runner.Stop(os);
      if st != Returned {
        return;
      }
      st, os' := runner.Start(Callback("_start"), Some(Callback("_stop")), None, None, os');
    } else if action == "start" {
      st, os' := runner.Start(Callback("_start"), Some(Callback("_stop")), None, None, os);
    } else if action == "stop" {
      st, os' := runner.Stop(os);
    } else if action == "status" {
      return Raise(AttributeError), os;
    } else if action == "kill" {
      st, os' := runner.Kill(os);
    } else {
      return Raise(ValueError), os;
    }
  }
}
