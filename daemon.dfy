/** `PHPDaemon` of lib/PHPDaemon.php: runs a script in the background through a shell,
    remembers its PID in a hidden PID file next to the script, and answers whether it is
    alive or stops it. The shell commands it runs are the `Host`'s operations. */
module Daemon {
  import opened PhpStrings
  import opened Host
  import opened PidFile

  // ---------------------------------------------------------------- pure derivations

  datatype Extracted = Extracted(script: string, arguments: string)

  /** `extract`: the first whitespace-free run of the script reference is the script, the
      other runs joined by single spaces are its arguments. */
  function Extract(s: string): Extracted {
    var ts := Tokens(s);
    if ts == [] then Extracted("", "") else Extracted(ts[0], Join(ts[1..], " "))
  }

  /** The script found by `extract` is the first maximal whitespace-free run of `s`, after
      its leading whitespace; it is empty exactly when `s` is all whitespace. */
  lemma ExtractScriptIsFirstRun(s: string)
    ensures var e, k := Extract(s), |s| - |SkipSpaces(s)|;
      && 0 <= k <= |s|
      && NoSpace(e.script)
      && (e.script == "" <==> AllSpace(s))
      && AllSpace(s[..k])
      && k + |e.script| <= |s| && s[k..k + |e.script|] == e.script
      && (k + |e.script| < |s| ==> IsSpace(s[k + |e.script|]))
  {
    ExtractScriptIsFirstWord(s);
    FirstRunAt(s, Extract(s).script);
  }

  lemma FirstRunAt(s: string, w: string)
    requires w == Word(SkipSpaces(s))
    ensures var k := |s| - |SkipSpaces(s)|;
      && 0 <= k <= |s|
      && NoSpace(w)
      && (w == "" <==> AllSpace(s))
      && AllSpace(s[..k])
      && k + |w| <= |s| && s[k..k + |w|] == w
      && (k + |w| < |s| ==> IsSpace(s[k + |w|]))
  {
    FirstWordIsRun(s);
  }

  lemma ExtractScriptIsFirstWord(s: string)
    ensures Extract(s).script == Word(SkipSpaces(s))
  {
    TokensHead(s);
  }

  /** The arguments found by `extract` split again into exactly the runs after the first. */
  lemma ExtractArgumentsAreOtherRuns(s: string)
    ensures Tokens(Extract(s).arguments) == if Tokens(s) == [] then [] else Tokens(s)[1..]
  {
    var ts := Tokens(s);
    if ts != [] {
      TokensAreWords(s);
      TokensOfJoin(ts[1..]);
    }
  }

  /** A reference written as words separated by single spaces gives its first word as the
      script and the others, joined the same way, as the arguments. */
  lemma ExtractOfJoinedWords(ws: seq<string>)
    requires Words(ws) && ws != []
    ensures Extract(Join(ws, " ")) == Extracted(ws[0], Join(ws[1..], " "))
  {
    TokensOfJoin(ws);
  }

  /** `"{$script_path}/.{$script}.pid"`. */
  function PidPath(scriptPath: string, script: string): string {
    scriptPath + "/." + script + ".pid"
  }

  /** The PID file path names its script: two scripts (with slash-free names) share a PID file
      only if they have the same directory part and the same name. */
  lemma PidPathIdentifiesScript(sp1: string, sc1: string, sp2: string, sc2: string)
    requires '/' !in sc1 && '/' !in sc2
    requires PidPath(sp1, sc1) == PidPath(sp2, sc2)
    ensures sp1 == sp2 && sc1 == sc2
  {
    var p1, p2 := PidPath(sp1, sc1), PidPath(sp2, sc2);
    var q1, q2 := (sp1 + "/") + ("." + sc1), (sp2 + "/") + ("." + sc2);
    assert p1 == q1 + ".pid" && p2 == q2 + ".pid";
    assert q1 == p1[..|p1| - 4] == q2;
    LastSegmentOfPath(sp1 + "/", "." + sc1);
    LastSegmentOfPath(sp2 + "/", "." + sc2);
    assert sc1 == ("." + sc1)[1..] == ("." + sc2)[1..] == sc2;
    assert sp1 == q1[..|sp1|] && sp2 == q2[..|sp2|];
  }

  /** The directory part keeps its trailing slash and the PID path adds another:
      `/tmp/jobs/worker.sh` keeps its PID in `/tmp/jobs//.worker.sh.pid`. */
  lemma PidPathOfJobsWorker(path: string)
    requires path == "/tmp/jobs/worker.sh"
    ensures var sc := Basename(path);
      PidPath(StrReplace(sc, "", path), sc) == "/tmp/jobs//.worker.sh.pid"
  {
    BasenameAndDirectoryOfJobsWorker(path);
    PidPathOfParts(StrReplace(Basename(path), "", path), Basename(path));
  }

  lemma PidPathOfParts(sp: string, sc: string)
    requires sp == "/tmp/jobs/" && sc == "worker.sh"
    ensures PidPath(sp, sc) == "/tmp/jobs//.worker.sh.pid"
  {
  }

  /** A bare script name has an empty script path, so the PID file and the default log file
      land in the root directory: `worker.sh` keeps its PID in `/.worker.sh.pid` and, with
      logging on and no log directory, logs to `/worker.sh.log`. */
  lemma PidPathOfBareName(s: string, o: Options, h: Host, logPath: string)
    requires s != [] && '/' !in s && NoSpace(s)
    ensures var sc := Basename(Extract(s).script);
      var sp := StrReplace(sc, "", Extract(s).script);
      && sc == s && sp == ""
      && PidPath(sp, sc) == "/." + s + ".pid"
      && (o.log == Some(true) && o.logPath == Some(logPath) && !h.IsDir(logPath) ==>
            LogSink(false, "", o, h, sp, sc) == LogSetting(true, "/" + s + ".log"))
  {
    BareNameParts(s);
  }

  lemma BareNameParts(s: string)
    requires s != [] && '/' !in s && NoSpace(s)
    ensures Extract(s).script == s && Basename(s) == s && StrReplace(s, "", s) == ""
  {
    assert Words([s]);
    ExtractOfJoinedWords([s]);
    BasenameOfPath("", s);
    assert "" + s == s;
    NameAlone(s);
  }

  /** The options array of the constructor: the `(boolean)` value of `'log'` and the
      `(string)` value of `'log_path'` when they are set, and the number of its other entries
      (other keys, or these keys holding null). */
  datatype Options = Options(log: Option<bool>, logPath: Option<string>, others: nat) {
    predicate IsEmpty() {
      log.None? && logPath.None? && others == 0
    }
  }

  datatype LogSetting = LogSetting(log: bool, logPath: string)

  /** Where the script's output goes, from the `$log` and `$log_path` fields before
      `initialize` and the options: non-empty options replace both fields (a missing `'log'`
      means no logging), logging off means `/dev/null`, and logging on means `{script}.log`
      in the given directory when `is_dir` accepts it, otherwise in the script's directory. */
  function LogSink(log: bool, logPath: string, o: Options, h: Host, scriptPath: string, script: string): (r: LogSetting)
    ensures r.log == if o.IsEmpty() then log else o.log == Some(true)
    ensures !r.log ==> r.logPath == "/dev/null"
    ensures r.log ==> var dir := if o.IsEmpty() then logPath else if o.logPath.Some? then o.logPath.value else "";
      r.logPath == (if h.IsDir(dir) then dir else scriptPath) + "/" + script + ".log"
  {
    var on := if o.IsEmpty() then log else o.log == Some(true);
    var path := if o.IsEmpty() then logPath else if o.logPath.Some? then o.logPath.value else "";
    if !on then LogSetting(false, "/dev/null")
    else if !h.IsDir(path) then LogSetting(true, scriptPath + "/" + script + ".log")
    else LogSetting(true, path + "/" + script + ".log")
  }

  /** The log file is never the PID file: one ends in `.log` (or is `/dev/null`), the other
      in `.pid`. */
  lemma LogSinkIsNotPidFile(log: bool, logPath: string, o: Options, h: Host, scriptPath: string, script: string)
    ensures LogSink(log, logPath, o, h, scriptPath, script).logPath != PidPath(scriptPath, script)
  {
    var r, p := LogSink(log, logPath, o, h, scriptPath, script), PidPath(scriptPath, script);
    assert p[|p| - 3..] == "pid";
    if r.log {
      assert r.logPath[|r.logPath| - 3..] == "log";
    } else {
      assert |r.logPath| == 9;
      if |p| == 9 {
        assert p[|p| - 3..] != r.logPath[6..];
      }
    }
  }

  // ---------------------------------------------------------------- messages and commands

  const ProcessInitError := "Could not initialize process."
  const LogInitError := "Could not initialize log."
  const DiedError := "Script died unexpectedly!"

  function NoProcessError(script: string): string {
    "There's no associated process alive for " + script
  }

  function LaunchError(script: string): string {
    "Could not initialize script: " + script
  }

  /** The message as the file spells it: the ellipsis is stored as three characters. */
  function SaveError(pid: string): string {
    "Could not save process id \"" + pid + "\"\U{00E2}\U{20AC}\U{00A6} killing it."
  }

  /** The shell command `start` runs: script with arguments, output to the log sink, in the
      background, echoing the new PID. */
  function LaunchCommand(binary: string, scriptPath: string, script: string, arguments: string, logPath: string): string {
    binary + " " + scriptPath + script + " " + arguments + " > " + logPath + " 2>&1 & echo $! &"
  }

  // ---------------------------------------------------------------- initialize, as a specification

  /** What `initialize` catches: `touch` of the PID file failing and then `chmod` of it failing
      too, or, with logging on, the same for the log file; None when it succeeds. */
  function InitFailure(h: Host, pid: string, log: bool, logPath: string): (r: Option<string>)
    ensures r == Some(ProcessInitError) <==> pid !in h.touchable && pid !in h.chmodable
    ensures r == None <==> (pid in h.touchable || pid in h.chmodable) && (!log || logPath in h.touchable || logPath in h.chmodable)
  {
    if pid !in h.touchable && pid !in h.chmodable then Some(ProcessInitError)
    else if log && logPath !in h.touchable && logPath !in h.chmodable then Some(LogInitError)
    else None
  }

  /** The effects of `initialize`: a `chmod` only after a failed `touch` of the same file, and
      nothing on the log file when logging is off or the PID file could not be set up. */
  function InitTrace(h: Host, pid: string, log: bool, logPath: string): seq<Op> {
    [Op.Touch(pid)]
    + (if pid in h.touchable then [] else [Op.Chmod(pid, PidFileMode)])
    + (if (pid !in h.touchable && pid !in h.chmodable) || !log then []
       else [Op.Touch(logPath)] + (if logPath in h.touchable then [] else [Op.Chmod(logPath, LogFileMode)]))
  }

  /** In the effects of `initialize` every step is a touch or a chmod, a chmod directly
      follows the failed touch of the same file, and with logging off only the PID file is
      touched. */
  lemma InitTraceChmodFollowsFailedTouch(h: Host, pid: string, log: bool, logPath: string)
    ensures var t := InitTrace(h, pid, log, logPath);
      && (forall i :: 0 <= i < |t| ==> t[i].Touch? || t[i].Chmod?)
      && (forall i :: 0 <= i < |t| && t[i].Chmod? ==> 0 < i && t[i - 1] == Op.Touch(t[i].path) && t[i].path !in h.touchable)
      && (!log ==> forall i :: 0 <= i < |t| ==> t[i].path == pid)
  {
  }

  /** The files after `initialize`. */
  function InitFiles(h: Host, fs: map<string, string>, pid: string, log: bool, logPath: string): map<string, string> {
    if (pid !in h.touchable && pid !in h.chmodable) || !log then h.Touched(fs, pid)
    else h.Touched(h.Touched(fs, pid), logPath)
  }

  // ---------------------------------------------------------------- the PID file

  /** `initialize` keeps the PID file well formed. */
  lemma InitFilesKeepPidFileOk(h: Host, fs: map<string, string>, pid: string, log: bool, logPath: string)
    ensures PidFileOk(fs, pid) ==> PidFileOk(InitFiles(h, fs, pid, log, logPath), pid)
  {
    if PidFileOk(fs, pid) {
      TouchedKeepsPidFileOk(h, fs, pid, pid);
      TouchedKeepsPidFileOk(h, h.Touched(fs, pid), pid, logPath);
    }
  }



  /** `getCurrentPID` reads a well-formed PID file exactly: 0 when it is absent or empty,
      otherwise the PID whose decimal form it holds. */
  lemma CurrentPidOfWellFormedFile(d: PHPDaemon, h: Host)
    requires PidFileOk(h.files, d.pid)
    ensures d.CurrentPid(h) == 0 <==> d.pid !in h.files || h.files[d.pid] == ""
    ensures d.CurrentPid(h) != 0 ==> h.files[d.pid] == Decimal(d.CurrentPid(h))
  {
    if d.pid in h.files && h.files[d.pid] != "" {
      var q: nat :| q > 0 && h.files[d.pid] == Decimal(q);
      assert d.CurrentPid(h) == q;
    }
  }

  /** A daemon without a PID file, or with an emptied one, is not alive. */
  lemma EmptyPidFileIsNotAlive(d: PHPDaemon, h: Host)
    requires d.pid !in h.files || h.files[d.pid] == ""
    ensures !h.Probe(d.CurrentPid(h))
  {
  }

  // ---------------------------------------------------------------- the class

  class PHPDaemon {
    var binary: string
    /** The PID file path. */
    var pid: string
    var script: string
    var scriptPath: string
    var arguments: string
    var logPath: string
    var log: bool
    /** The `error` record; its `code` is always 0 and is not kept. */
    var error: Option<string>

    /** `__construct($script, $binary, $options)`: sets the script and the binary when they are
        truthy, then runs `initialize`, whose result it drops. */
    constructor (script: string, binary: string, options: Options, h: Host)
      modifies h
      ensures Truthy(script) ==> var e := Extract(script);
        this.script == Basename(e.script) && arguments == e.arguments && scriptPath == StrReplace(this.script, "", e.script)
      ensures !Truthy(script) ==> this.script == "" && scriptPath == "" && arguments == ""
      ensures this.binary == if Truthy(binary) then binary else ""
      ensures pid == PidPath(scriptPath, this.script)
      ensures LogSetting(log, logPath) == LogSink(true, "", options, h, scriptPath, this.script)
      ensures error == InitFailure(h, pid, log, logPath)
      ensures h.files == InitFiles(h, old(h.files), pid, log, logPath)
      ensures h.live == old(h.live) && h.trace == old(h.trace) + InitTrace(h, pid, log, logPath)
      ensures PidFileOk(old(h.files), pid) ==> PidFileOk(h.files, pid)
    {
      this.binary, pid, this.script, scriptPath, arguments := "", "/var/run", "", "", "";
      logPath, log, error := "", true, None;
      new;
      if Truthy(script) {
        var isSet := SetScript(script);
      }
      if Truthy(binary) {
        SetBinary(binary);
      }
      var initialized := Initialize(options, h);
    }

    /** `setScript`: the script is the basename of the first run of the reference, the
        arguments are the other runs, and the script path is that first run with every
        occurrence of the name removed. */
    method SetScript(s: string) returns (isSet: bool)
      modifies this`script, this`arguments, this`scriptPath
      ensures isSet
      ensures var e := Extract(s);
        script == Basename(e.script) && arguments == e.arguments && scriptPath == StrReplace(script, "", e.script)
    {
      var extracted := Extract(s);
      script := Basename(extracted.script);
      arguments := extracted.arguments;
      scriptPath := StrReplace(script, "", extracted.script);
      isSet := true;
    }

    method SetBinary(b: string)
      modifies this`binary
      ensures binary == b
    {
      binary := b;
    }

    /** `initialize`: derives the PID file and the log sink, then touches (or else chmods)
        the PID file and, with logging on, the log file; returns false with the message of the
        first step that failed. */
    method Initialize(options: Options, h: Host) returns (ok: bool)
      modifies this`pid, this`log, this`logPath, this`error, h
      ensures pid == PidPath(scriptPath, script)
      ensures LogSetting(log, logPath) == LogSink(old(log), old(logPath), options, h, scriptPath, script)
      ensures ok == InitFailure(h, pid, log, logPath).None?
      ensures error == if ok then old(error) else InitFailure(h, pid, log, logPath)
      ensures h.files == InitFiles(h, old(h.files), pid, log, logPath)
      ensures h.live == old(h.live) && h.trace == old(h.trace) + InitTrace(h, pid, log, logPath)
      ensures PidFileOk(old(h.files), pid) ==> PidFileOk(h.files, pid)
    {
      pid := scriptPath + "/." + script + ".pid";
      ChooseLog(options, h);
      ok := CreateFiles(h);
    }

    /** The log half of `initialize`: explicit options replace the defaults, a log path that
        is not a directory falls back to the script's directory, and logging off means
        `/dev/null`. */
    method ChooseLog(options: Options, h: Host)
      modifies this`log, this`logPath
      ensures LogSetting(log, logPath) == LogSink(old(log), old(logPath), options, h, scriptPath, script)
    {
      if !options.IsEmpty() {
        log := options.log == Some(true);
        logPath := if options.logPath.Some? then options.logPath.value else "";
      }
      if log && !h.IsDir(logPath) {
        logPath := scriptPath + "/" + script + ".log";
      } else if log && h.IsDir(logPath) {
        logPath := logPath + "/" + script + ".log";
      }
      if !log {
        logPath := "/dev/null";
      }
    }

    /** The file half of `initialize`: touch, else chmod, the PID file, then the log file
        when logging is on; the first step that fails sets the error and stops. */
    method CreateFiles(h: Host) returns (ok: bool)
      modifies this`error, h
      ensures ok == InitFailure(h, pid, log, logPath).None?
      ensures error == if ok then old(error) else InitFailure(h, pid, log, logPath)
      ensures h.files == InitFiles(h, old(h.files), pid, log, logPath)
      ensures h.live == old(h.live) && h.trace == old(h.trace) + InitTrace(h, pid, log, logPath)
      ensures old(PidFileOk(h.files, pid)) ==> PidFileOk(h.files, pid)
    {
      ghost var before := h.trace;
      var touched := h.Touch(pid);
      ghost var pidSteps := [Op.Touch(pid)];
      if !touched {
        var changed := h.Chmod(pid, PidFileMode);
        pidSteps := pidSteps + [Op.Chmod(pid, PidFileMode)];
        if !changed {
          error := Some(ProcessInitError);
          assert InitTrace(h, pid, log, logPath) == pidSteps;
          InitFilesKeepPidFileOk(h, old(h.files), pid, log, logPath);
          return false;
        }
      }
      assert h.trace == before + pidSteps;
      if log {
        var logTouched := h.Touch(logPath);
        ghost var logSteps := [Op.Touch(logPath)];
        if !logTouched {
          var logChanged := h.Chmod(logPath, LogFileMode);
          logSteps := logSteps + [Op.Chmod(logPath, LogFileMode)];
          if !logChanged {
            error := Some(LogInitError);
            assert InitTrace(h, pid, log, logPath) == pidSteps + logSteps;
            assert h.trace == before + (pidSteps + logSteps);
            InitFilesKeepPidFileOk(h, old(h.files), pid, log, logPath);
            return false;
          }
        }
        assert InitTrace(h, pid, log, logPath) == pidSteps + logSteps;
        assert h.trace == before + (pidSteps + logSteps);
      } else {
        assert InitTrace(h, pid, log, logPath) == pidSteps + [];
      }
      ok := true;
      InitFilesKeepPidFileOk(h, old(h.files), pid, log, logPath);
    }

    /** `getCurrentPID`: 0 without a PID file, else the `(int)` value of its contents; a PID
        written in decimal reads back as itself, an emptied file as 0. */
    function CurrentPid(h: Host): (n: nat)
      reads this`pid, h`files
      ensures pid !in h.files ==> n == 0
      ensures pid in h.files && h.files[pid] == "" ==> n == 0
      ensures forall p: nat :: pid in h.files && h.files[pid] == Decimal(p) ==> n == p
    {
      IntCastOfEveryDecimal();
      if pid !in h.files then 0 else IntCast(h.files[pid])
    }

    /** `checkPID`: the probe's answer; a negative answer records that no process is alive. */
    method CheckPid(n: int, h: Host) returns (running: bool)
      modifies this`error
      ensures running == h.Probe(n)
      ensures error == if running then old(error) else Some(NoProcessError(script))
    {
      running := h.Probe(n);
      if !running {
        error := Some(NoProcessError(script));
      }
    }

    /** `kill`: a live process is signalled and the PID file emptied; the result is the probe
        asked again. A process that was not alive is left alone and nothing is written. */
    method Kill(n: int, h: Host) returns (alive: bool)
      modifies this`error, h
      ensures alive == h.Probe(n)
      ensures old(h.Probe(n)) ==>
        && h.live == h.Terminated(old(h.live), n)
        && h.files == h.Written(old(h.files), pid, "")
        && h.trace == old(h.trace) + [Op.Signal(n), Op.Write(pid, "")]
      ensures !old(h.Probe(n)) ==> h.live == old(h.live) && h.files == old(h.files) && h.trace == old(h.trace)
      ensures error == if old(h.Probe(n)) && alive then old(error) else Some(NoProcessError(script))
      ensures old(PidFileOk(h.files, pid)) ==> PidFileOk(h.files, pid)
    {
      var running := CheckPid(n, h);
      if running {
        h.Kill(n);
        var _ := h.Put(pid, "");
      }
      alive := CheckPid(n, h);
    }

    /** `isAlive`: the probe applied to the PID in the PID file. */
    method IsAlive(h: Host) returns (alive: bool)
      modifies this`error
      ensures alive == h.Probe(CurrentPid(h))
      ensures error == if alive then old(error) else Some(NoProcessError(script))
    {
      alive := CheckPid(CurrentPid(h), h);
    }

    /** `stop`: true exactly when the process of the PID file is not alive afterwards. A
        process that was not alive is not signalled and the PID file is kept; a live one is
        signalled and its PID file emptied before the probe is asked again. After a stop that
        returns true the PID file names no live process, so stopping again changes nothing. */
    method Stop(h: Host) returns (stopped: bool)
      modifies this`error, h
      ensures var n := old(CurrentPid(h));
        && stopped == !h.Probe(n)
        && (old(h.Probe(n)) ==>
              && h.live == h.Terminated(old(h.live), n)
              && h.files == h.Written(old(h.files), pid, "")
              && h.trace == old(h.trace) + [Op.Signal(n), Op.Write(pid, "")])
        && (!old(h.Probe(n)) ==> stopped && h.live == old(h.live) && h.files == old(h.files) && h.trace == old(h.trace))
      ensures stopped ==> !h.Probe(CurrentPid(h))
      ensures error == if stopped then Some(NoProcessError(script)) else old(error)
      ensures old(PidFileOk(h.files, pid)) ==> PidFileOk(h.files, pid)
    {
      var alive := Kill(CurrentPid(h), h);
      stopped := !alive;
    }

    /** `start`: launches the script in the background and keeps its PID. No PID from the
        launcher: false, PID file untouched. The PID cannot be written: the process is
        signalled, false. The process is gone after the grace interval: the PID file is
        emptied, false. Otherwise true, and the PID file reads back as the new PID, which is
        alive. */
    method Start(h: Host) returns (initialized: bool)
      modifies this`error, h
      ensures var cmd := LaunchCommand(binary, scriptPath, script, arguments, logPath);
        && (h.spawns.None? || h.spawns == Some(0) ==>
              && !initialized && error == Some(LaunchError(script))
              && h.files == old(h.files)
              && h.live == old(h.live)
              && h.trace == old(h.trace) + [Op.Launch(cmd)])
        && (h.spawns.Some? && h.spawns.value > 0 ==>
              var p := h.spawns.value;
              && (pid !in h.writable ==>
                    && !initialized && error == Some(SaveError(Decimal(p)))
                    && h.files == old(h.files)
                    && h.live == h.Terminated(old(h.live) + {p}, p)
                    && h.trace == old(h.trace) + [Op.Launch(cmd), Op.Write(pid, Decimal(p)), Op.Signal(p)])
              && (pid in h.writable ==>
                    && h.live == old(h.live) + {p} - h.doomed
                    && initialized == (p !in h.doomed)
                    && (initialized ==>
                          && error == old(error)
                          && h.files == old(h.files)[pid := Decimal(p)]
                          && CurrentPid(h) == p && h.Probe(CurrentPid(h))
                          && h.trace == old(h.trace) + [Op.Launch(cmd), Op.Write(pid, Decimal(p)), Op.Pause])
                    && (!initialized ==>
                          && error == Some(DiedError)
                          && h.files == old(h.files)[pid := ""]
                          && h.trace == old(h.trace) + [Op.Launch(cmd), Op.Write(pid, Decimal(p)), Op.Pause, Op.Write(pid, "")])))
      ensures old(PidFileOk(h.files, pid)) ==> PidFileOk(h.files, pid)
    {
      initialized := false;
      var command := binary + " " + scriptPath + script + " " + arguments;
      command := command + " > " + logPath + " 2>&1 & echo $! &";
      var daemonPid := h.Spawn(command);
      if h.spawns.Some? {
        DecimalTruthy(h.spawns.value);
        IntCastOfDecimal(h.spawns.value);
      }
      if !Truthy(daemonPid) {
        error := Some(LaunchError(script));
        return;
      }
      ghost var launched := h.trace;
      initialized := KeepPid(h.spawns.value, daemonPid, h);
      assert launched == old(h.trace) + [Op.Launch(command)];
    }

    /** The rest of `start` once the launcher printed the PID `p` of a running process: the
        PID is written to the PID file, or the process is signalled when that fails; after
        the grace interval the probe decides, and a process that is gone has its PID file
        emptied. */
    method KeepPid(p: nat, daemonPid: string, h: Host) returns (initialized: bool)
      requires p > 0 && p in h.live && daemonPid == Decimal(p)
      modifies this`error, h
      ensures pid !in h.writable ==>
        && !initialized && error == Some(SaveError(daemonPid))
        && h.files == old(h.files)
        && h.live == h.Terminated(old(h.live), p)
        && h.trace == old(h.trace) + [Op.Write(pid, daemonPid), Op.Signal(p)]
      ensures pid in h.writable ==>
        && h.live == old(h.live) - h.doomed
        && initialized == (p !in h.doomed)
        && (initialized ==>
              && error == old(error)
              && h.files == old(h.files)[pid := daemonPid]
              && CurrentPid(h) == p && h.Probe(CurrentPid(h))
              && h.trace == old(h.trace) + [Op.Write(pid, daemonPid), Op.Pause])
        && (!initialized ==>
              && error == Some(DiedError)
              && h.files == old(h.files)[pid := ""]
              && h.trace == old(h.trace) + [Op.Write(pid, daemonPid), Op.Pause, Op.Write(pid, "")])
      ensures old(PidFileOk(h.files, pid)) ==> PidFileOk(h.files, pid)
    {
      initialized := false;
      SavedPidFileOk(h.files, pid, p);
      IntCastOfDecimal(p);
      assert IntCast(daemonPid) == p;
      var written := h.Put(pid, daemonPid);
      if written.None? || written == Some(0) {
        h.Kill(IntCast(daemonPid));
        error := Some(SaveError(daemonPid));
        return;
      }
      h.Sleep();
      initialized := CheckPid(IntCast(daemonPid), h);
      if !initialized {
        var _ := h.Put(pid, "");
        error := Some(DiedError);
      }
    }
  }

  /** Stopping twice: once a stop has returned true, a second stop returns true as well and
      changes neither the files nor the processes. */
  method StopTwice(d: PHPDaemon, h: Host)
    returns (first: bool, second: bool, ghost betweenFiles: map<string, string>, ghost betweenLive: set<int>)
    modifies d`error, h
    ensures first ==> second && h.files == betweenFiles && h.live == betweenLive
  {
    first := d.Stop(h);
    betweenFiles, betweenLive := h.files, h.live;
    second := d.Stop(h);
  }
}
