/** `PHPDaemon\PHPDaemon` of lib/PHPDaemon/PHPDaemon.php: the namespaced variant. It takes
    no options and no arguments, always logs to a hidden `.log` file next to the script, only
    touches its files (no chmod fallback), and lets the failure of `initialize` escape from
    the constructor as an exception. */
module NamespacedDaemon {
  import opened PhpStrings
  import opened Host
  import opened PidFile

  // ---------------------------------------------------------------- pure derivations

  /** `"{$this->script_path}.{$this->script}.pid"`: no slash is inserted. */
  function PidPath(scriptPath: string, script: string): string {
    scriptPath + "." + script + ".pid"
  }

  /** `"{$this->script_path}.{$this->script}.log"`. */
  function LogPath(scriptPath: string, script: string): string {
    scriptPath + "." + script + ".log"
  }

  /** The PID file of one script is never the log file of another: one ends in `.pid`, the
      other in `.log`. */
  lemma PidFileIsNotLogFile(sp: string, sc: string, sp2: string, sc2: string)
    ensures PidPath(sp, sc) != LogPath(sp2, sc2)
  {
    var p, l := PidPath(sp, sc), LogPath(sp2, sc2);
    assert p[|p| - 1] == 'd' && l[|l| - 1] == 'g';
  }

  /** A directory part (empty or ending in '/') followed by a dot and a slash-free name
      determines both. */
  lemma {:induction false} DottedNameIdentifiesScript(sp: string, sc: string, sp2: string, sc2: string)
    requires '/' !in sc && '/' !in sc2
    requires sp == [] || sp[|sp| - 1] == '/'
    requires sp2 == [] || sp2[|sp2| - 1] == '/'
    requires sp + ("." + sc) == sp2 + ("." + sc2)
    ensures sp == sp2 && sc == sc2
  {
    LastSegmentOfPath(sp, "." + sc);
    LastSegmentOfPath(sp2, "." + sc2);
    assert sc == ("." + sc)[1..] == ("." + sc2)[1..] == sc2;
    var q := sp + ("." + sc);
    assert sp == q[..|sp|] && sp2 == q[..|sp2|];
  }

  /** Two scripts share a PID file only if they have the same script path and the same name,
      given the form `setScript` gives them (`ScriptPathEndsInSlash`, `BasenameIsLastName`). */
  lemma PidPathIdentifiesScript(sp: string, sc: string, sp2: string, sc2: string)
    requires '/' !in sc && '/' !in sc2
    requires sp == [] || sp[|sp| - 1] == '/'
    requires sp2 == [] || sp2[|sp2| - 1] == '/'
    requires PidPath(sp, sc) == PidPath(sp2, sc2)
    ensures sp == sp2 && sc == sc2
  {
    var p, p2 := PidPath(sp, sc), PidPath(sp2, sc2);
    assert p == (sp + ("." + sc)) + ".pid" && p2 == (sp2 + ("." + sc2)) + ".pid";
    assert sp + ("." + sc) == p[..|p| - 4] == sp2 + ("." + sc2);
    DottedNameIdentifiesScript(sp, sc, sp2, sc2);
  }

  /** The same for log files. */
  lemma LogPathIdentifiesScript(sp: string, sc: string, sp2: string, sc2: string)
    requires '/' !in sc && '/' !in sc2
    requires sp == [] || sp[|sp| - 1] == '/'
    requires sp2 == [] || sp2[|sp2| - 1] == '/'
    requires LogPath(sp, sc) == LogPath(sp2, sc2)
    ensures sp == sp2 && sc == sc2
  {
    var l, l2 := LogPath(sp, sc), LogPath(sp2, sc2);
    assert l == (sp + ("." + sc)) + ".log" && l2 == (sp2 + ("." + sc2)) + ".log";
    assert sp + ("." + sc) == l[..|l| - 4] == sp2 + ("." + sc2);
    DottedNameIdentifiesScript(sp, sc, sp2, sc2);
  }

  /** Two script references that `setScript` turns into the same PID file have the same name
      and the same script path. */
  lemma SetScriptPidFileIdentifiesScript(s: string, s2: string)
    requires var sc, sc2 := Basename(s), Basename(s2);
      PidPath(StrReplace(sc, "", s), sc) == PidPath(StrReplace(sc2, "", s2), sc2)
    ensures Basename(s) == Basename(s2) && StrReplace(Basename(s), "", s) == StrReplace(Basename(s2), "", s2)
  {
    BasenameIsLastName(s);
    BasenameIsLastName(s2);
    ScriptPathEndsInSlash(s);
    ScriptPathEndsInSlash(s2);
    PidPathIdentifiesScript(StrReplace(Basename(s), "", s), Basename(s), StrReplace(Basename(s2), "", s2), Basename(s2));
  }

  /** Here the directory part and the name are joined without another slash:
      `/tmp/jobs/worker.sh` keeps its PID in `/tmp/jobs/.worker.sh.pid`. */
  lemma PidPathOfJobsWorker(path: string)
    requires path == "/tmp/jobs/worker.sh"
    ensures var sc := Basename(path);
      PidPath(StrReplace(sc, "", path), sc) == "/tmp/jobs/.worker.sh.pid"
  {
    BasenameAndDirectoryOfJobsWorker(path);
    PidPathOfParts(StrReplace(Basename(path), "", path), Basename(path));
  }

  lemma PidPathOfParts(sp: string, sc: string)
    requires sp == "/tmp/jobs/" && sc == "worker.sh"
    ensures PidPath(sp, sc) == "/tmp/jobs/.worker.sh.pid"
  {
  }

  /** The message of the exception `initialize` throws. */
  function InitError(script: string): string {
    "Could not initialize, make sure " + script + " path is writtable."
  }

  const DiedError := "Script died unexpectedly!"

  function NoProcessError(script: string): string {
    "There's no associated process alive for " + script
  }

  function LaunchError(script: string): string {
    "Could not initialize script: " + script
  }

  /** The message as the file spells it, with a real ellipsis. */
  function SaveError(pid: string): string {
    "Could not save process id \"" + pid + "\"\U{2026} killing it."
  }

  /** The shell command `start` runs: no arguments, output to the log file, in the
      background, echoing the new PID. */
  function LaunchCommand(binary: string, scriptPath: string, script: string, log: string): string {
    binary + " " + scriptPath + script + " > " + log + " 2>&1 & echo $! &"
  }

  // ---------------------------------------------------------------- initialize, as a specification

  /** `initialize` succeeds exactly when both files can be touched. */
  predicate InitOk(h: Host, pid: string, log: string) {
    pid in h.touchable && log in h.touchable
  }

  /** The effects of `initialize`: the `||` short-circuits, so the log file is touched only
      after the PID file was. */
  function InitTrace(h: Host, pid: string, log: string): (t: seq<Op>) {
    if pid in h.touchable then [Op.Touch(pid), Op.Touch(log)] else [Op.Touch(pid)]
  }

  /** The files after `initialize`. */
  function InitFiles(h: Host, fs: map<string, string>, pid: string, log: string): map<string, string> {
    if pid in h.touchable then h.Touched(h.Touched(fs, pid), log) else fs
  }

  /** The trace of `initialize` touches the PID file first and the log file only when the PID
      file could be touched; it ends with a touch that failed exactly when `initialize` fails. */
  lemma InitTraceShape(h: Host, pid: string, log: string)
    ensures var t := InitTrace(h, pid, log);
      && 1 <= |t| <= 2 && t[0] == Op.Touch(pid)
      && (|t| == 2 <==> pid in h.touchable)
      && (forall i :: 0 <= i < |t| ==> t[i].Touch?)
      && (InitOk(h, pid, log) <==> t[|t| - 1].path in h.touchable)
  {
  }

  /** Running `initialize` again on the files it produced changes nothing more: touching an
      existing file keeps its contents. */
  lemma {:induction false} InitFilesIdempotent(h: Host, fs: map<string, string>, pid: string, log: string)
    ensures InitFiles(h, InitFiles(h, fs, pid, log), pid, log) == InitFiles(h, fs, pid, log)
  {
    if pid in h.touchable {
      var once := InitFiles(h, fs, pid, log);
      assert pid in once;
      assert log in h.touchable ==> log in once;
      assert h.Touched(once, pid) == once;
      assert h.Touched(once, log) == once;
    }
  }

  /** Initialising never loses a file or changes the contents of one that existed: it only
      adds empty files. */
  lemma InitFilesOnlyAddsEmptyFiles(h: Host, fs: map<string, string>, pid: string, log: string)
    ensures var r := InitFiles(h, fs, pid, log);
      && (forall p :: p in fs ==> p in r && r[p] == fs[p])
      && (forall p :: p in r && p !in fs ==> r[p] == "" && (p == pid || p == log))
  {
  }

  /** `initialize` keeps the PID file empty or holding one positive PID in decimal. */
  lemma InitFilesKeepPidFileOk(h: Host, fs: map<string, string>, pid: string, log: string)
    requires PidFileOk(fs, pid)
    ensures PidFileOk(InitFiles(h, fs, pid, log), pid)
  {
    if pid in h.touchable {
      TouchedKeepsPidFileOk(h, fs, pid, pid);
      TouchedKeepsPidFileOk(h, h.Touched(fs, pid), pid, log);
    }
  }

  // ---------------------------------------------------------------- the outcome of the launch

  /** The `try` block of `start`, as a relation between the state before it (`fs0`, `live0`,
      `trace0`, `errors0`) and after it. No PID from the launcher: false, PID file untouched.
      The PID cannot be written: the process is signalled, false. The process is gone after
      the grace interval: the PID file is emptied, false. Otherwise true, with the new PID in
      the PID file. */
  ghost predicate Launched(h: Host, cmd: string, pid: string, script: string,
                           fs0: map<string, string>, live0: set<int>, trace0: seq<Op>, errors0: Option<string>,
                           fs: map<string, string>, live: set<int>, trace: seq<Op>, errors: Option<string>,
                           initialized: bool)
  {
    && (h.spawns.None? || h.spawns == Some(0) ==>
          && !initialized && errors == Some(LaunchError(script))
          && fs == fs0
          && live == live0
          && trace == trace0 + [Op.Launch(cmd)])
    && (h.spawns.Some? && h.spawns.value > 0 ==>
          var p := h.spawns.value;
          && (pid !in h.writable ==>
                && !initialized && errors == Some(SaveError(Decimal(p)))
                && fs == fs0
                && live == h.Terminated(live0 + {p}, p)
                && trace == trace0 + [Op.Launch(cmd), Op.Write(pid, Decimal(p)), Op.Signal(p)])
          && (pid in h.writable ==>
                && live == live0 + {p} - h.doomed
                && initialized == (p !in h.doomed)
                && (initialized ==>
                      && errors == errors0
                      && fs == fs0[pid := Decimal(p)]
                      && trace == trace0 + [Op.Launch(cmd), Op.Write(pid, Decimal(p)), Op.Pause])
                && (!initialized ==>
                      && errors == Some(DiedError)
                      && fs == fs0[pid := ""]
                      && trace == trace0 + [Op.Launch(cmd), Op.Write(pid, Decimal(p)), Op.Pause, Op.Write(pid, "")])))
  }

  // ---------------------------------------------------------------- the class

  class PHPDaemon {
    var binary: string
    /** The PID file path. */
    var pid: string
    var script: string
    var scriptPath: string
    /** The log file path. */
    var log: string
    /** The public `errors` record; its `code` is always 0 and is not kept. */
    var errors: Option<string>

    /** The property defaults: every `null` field reads as the empty string, the log as
        `/dev/null`. */
    constructor Blank()
      ensures binary == "" && pid == "" && script == "" && scriptPath == ""
      ensures log == "/dev/null" && errors == None
    {
      binary, pid, script, scriptPath := "", "", "", "";
      log, errors := "/dev/null", None;
    }

    /** `new PHPDaemon($script, $binary)`: sets the script (which initialises once) when it is
        truthy and the binary when it is truthy, then initialises again; an exception from that
        second `initialize` escapes, and no object is obtained. Without a script both files are
        relative (`..pid`, `..log`). Since both runs touch the same files, the second fails
        exactly when the first did, so an object that is obtained carries no error. */
    static method New(script: string, binary: string, h: Host) returns (d: PHPDaemon?, thrown: Option<string>)
      modifies h
      ensures var sc := if Truthy(script) then Basename(script) else "";
        var sp := if Truthy(script) then StrReplace(sc, "", script) else "";
        var p, l := PidPath(sp, sc), LogPath(sp, sc);
        && thrown == (if InitOk(h, p, l) then None else Some(InitError(sc)))
        && (d == null <==> thrown.Some?)
        && (d != null ==>
              && fresh(d)
              && d.script == sc && d.scriptPath == sp && d.pid == p && d.log == l
              && d.binary == (if Truthy(binary) then binary else "")
              && d.errors == None
              && (PidFileOk(old(h.files), p) ==> PidFileOk(h.files, p)))
        && h.files == InitFiles(h, old(h.files), p, l)
        && h.live == old(h.live)
        && h.trace == old(h.trace) + (if Truthy(script) then InitTrace(h, p, l) else []) + InitTrace(h, p, l)
    {
      var o := new PHPDaemon.Blank();
      if Truthy(script) {
        var _ := o.SetScript(script, h);
        InitFilesIdempotent(h, old(h.files), o.pid, o.log);
      }
      if Truthy(binary) {
        o.SetBinary(binary);
      }
      thrown := o.Initialize(h);
      d := if thrown.None? then o else null;
    }

    /** `initialize`: both paths from the script, then `touch` of the PID file and, only if it
        succeeded, of the log file; the message to throw when either failed. */
    method Initialize(h: Host) returns (thrown: Option<string>)
      modifies this`pid, this`log, h
      ensures pid == PidPath(scriptPath, script) && log == LogPath(scriptPath, script)
      ensures thrown == if InitOk(h, pid, log) then None else Some(InitError(script))
      ensures h.files == InitFiles(h, old(h.files), pid, log)
      ensures h.live == old(h.live) && h.trace == old(h.trace) + InitTrace(h, pid, log)
      ensures PidFileOk(old(h.files), pid) ==> PidFileOk(h.files, pid)
    {
      pid := scriptPath + "." + script + ".pid";
      log := scriptPath + "." + script + ".log";
      thrown := None;
      var touched := h.Touch(pid);
      if touched {
        touched := h.Touch(log);
      }
      if !touched {
        thrown := Some("Could not initialize, make sure " + script + " path is writtable.");
      }
      if PidFileOk(old(h.files), pid) {
        InitFilesKeepPidFileOk(h, old(h.files), pid, log);
      }
    }

    /** `setScript`: the script is the basename of the reference and the script path is the
        reference with every occurrence of that name removed; then `initialize`, whose
        exception is recorded. Returns true whether or not initialising succeeded. */
    method SetScript(s: string, h: Host) returns (isSet: bool)
      modifies this`script, this`scriptPath, this`pid, this`log, this`errors, h
      ensures isSet
      ensures script == Basename(s) && scriptPath == StrReplace(script, "", s)
      ensures pid == PidPath(scriptPath, script) && log == LogPath(scriptPath, script)
      ensures errors == if InitOk(h, pid, log) then old(errors) else Some(InitError(script))
      ensures h.files == InitFiles(h, old(h.files), pid, log)
      ensures h.live == old(h.live) && h.trace == old(h.trace) + InitTrace(h, pid, log)
      ensures PidFileOk(old(h.files), pid) ==> PidFileOk(h.files, pid)
    {
      script := Basename(s);
      scriptPath := StrReplace(script, "", s);
      isSet := true;
      var thrown := Initialize(h);
      if thrown.Some? {
        errors := thrown;
      }
    }

    method SetBinary(b: string)
      modifies this`binary
      ensures binary == b
    {
      binary := b;
    }

    /** `getCurrentPID`: 0 without a PID file, else the `(int)` value of its contents. */
    function CurrentPid(h: Host): (n: nat)
      reads this`pid, h`files
      ensures pid !in h.files ==> n == 0
      ensures pid in h.files && h.files[pid] == "" ==> n == 0
      ensures forall p: nat :: pid in h.files && h.files[pid] == Decimal(p) ==> n == p
    {
      IntCastOfEveryDecimal();
      if pid !in h.files then 0 else IntCast(h.files[pid])
    }

    /** `checkPID`: the probe's answer; a negative answer records that no process is alive. */
    method CheckPid(n: int, h: Host) returns (running: bool)
      modifies this`errors
      ensures running == h.Probe(n)
      ensures errors == if running then old(errors) else Some(NoProcessError(script))
    {
      running := h.Probe(n);
      if !running {
        errors := Some(NoProcessError(script));
      }
    }

    /** `kill`: a live process is signalled and the PID file emptied; the result is the probe
        asked again. */
    method Kill(n: int, h: Host) returns (alive: bool)
      modifies this`errors, h
      ensures alive == h.Probe(n)
      ensures old(h.Probe(n)) ==>
        && h.live == h.Terminated(old(h.live), n)
        && h.files == h.Written(old(h.files), pid, "")
        && h.trace == old(h.trace) + [Op.Signal(n), Op.Write(pid, "")]
      ensures !old(h.Probe(n)) ==> h.live == old(h.live) && h.files == old(h.files) && h.trace == old(h.trace)
      ensures errors == if old(h.Probe(n)) && alive then old(errors) else Some(NoProcessError(script))
      ensures old(PidFileOk(h.files, pid)) ==> PidFileOk(h.files, pid)
    {
      var running := CheckPid(n, h);
      if running {
        h.Kill(n);
        var _ := h.Put(pid, "");
      }
      alive := CheckPid(n, h);
    }

    /** `isAlive`: the probe applied to the PID in the PID file. */
    method IsAlive(h: Host) returns (alive: bool)
      modifies this`errors
      ensures alive == h.Probe(CurrentPid(h))
      ensures errors == if alive then old(errors) else Some(NoProcessError(script))
    {
      alive := CheckPid(CurrentPid(h), h);
    }

    /** `stop`: true exactly when the process of the PID file is not alive afterwards; after a
        stop that returns true the PID file names no live process. */
    method Stop(h: Host) returns (stopped: bool)
      modifies this`errors, h
      ensures var n := old(CurrentPid(h));
        && stopped == !h.Probe(n)
        && (old(h.Probe(n)) ==>
              && h.live == h.Terminated(old(h.live), n)
              && h.files == h.Written(old(h.files), pid, "")
              && h.trace == old(h.trace) + [Op.Signal(n), Op.Write(pid, "")])
        && (!old(h.Probe(n)) ==> stopped && h.live == old(h.live) && h.files == old(h.files) && h.trace == old(h.trace))
      ensures stopped ==> !h.Probe(CurrentPid(h))
      ensures errors == if stopped then Some(NoProcessError(script)) else old(errors)
      ensures old(PidFileOk(h.files, pid)) ==> PidFileOk(h.files, pid)
    {
      var alive := Kill(CurrentPid(h), h);
      stopped := !alive;
    }

    /** `start($script)`: a truthy script is set first (initialising, and recording a failure
        of that, without stopping); then the launch runs as `Launched` describes, from the
        state `setScript` left. A successful start leaves the new PID readable and alive. */
    method Start(s: string, h: Host) returns (initialized: bool)
      modifies this`script, this`scriptPath, this`pid, this`log, this`errors, h
      ensures Truthy(s) ==>
        && script == Basename(s) && scriptPath == StrReplace(script, "", s)
        && pid == PidPath(scriptPath, script) && log == LogPath(scriptPath, script)
      ensures !Truthy(s) ==> script == old(script) && scriptPath == old(scriptPath) && pid == old(pid) && log == old(log)
      ensures var staged := Truthy(s);
        Launched(h, LaunchCommand(binary, scriptPath, script, log), pid, script,
                 if staged then InitFiles(h, old(h.files), pid, log) else old(h.files),
                 old(h.live),
                 if staged then old(h.trace) + InitTrace(h, pid, log) else old(h.trace),
                 if staged && !InitOk(h, pid, log) then Some(InitError(script)) else old(errors),
                 h.files, h.live, h.trace, errors, initialized)
      ensures initialized ==> h.spawns.Some? && CurrentPid(h) == h.spawns.value && h.Probe(CurrentPid(h))
      ensures PidFileOk(old(h.files), pid) ==> PidFileOk(h.files, pid)
    {
      if Truthy(s) {
        var _ := SetScript(s, h);
      }
      initialized := Launch(h);
    }

    /** The `try` block of `start`. */
    method Launch(h: Host) returns (initialized: bool)
      modifies this`errors, h
      ensures Launched(h, LaunchCommand(binary, scriptPath, script, log), pid, script,
                       old(h.files), old(h.live), old(h.trace), old(errors),
                       h.files, h.live, h.trace, errors, initialized)
      ensures initialized ==> h.spawns.Some? && CurrentPid(h) == h.spawns.value && h.Probe(CurrentPid(h))
      ensures old(PidFileOk(h.files, pid)) ==> PidFileOk(h.files, pid)
    {
      initialized := false;
      var command := binary + " " + scriptPath + script + " > " + log + " 2>&1 & echo $! &";
      var daemonPid := h.Spawn(command);
      if h.spawns.Some? {
        DecimalTruthy(h.spawns.value);
        IntCastOfDecimal(h.spawns.value);
      }
      if !Truthy(daemonPid) {
        errors := Some(LaunchError(script));
        return;
      }
      ghost var launched := h.trace;
      initialized := KeepPid(h.spawns.value, daemonPid, h);
      assert launched == old(h.trace) + [Op.Launch(command)];
    }

    /** The rest of the `try` block once the launcher printed the PID `p` of a running
        process: the PID is written to the PID file, or the process is signalled when that
        fails; after the grace interval the probe decides, and a process that is gone has its
        PID file emptied. */
    method KeepPid(p: nat, daemonPid: string, h: Host) returns (initialized: bool)
      requires p > 0 && p in h.live && daemonPid == Decimal(p)
      modifies this`errors, h
      ensures pid !in h.writable ==>
        && !initialized && errors == Some(SaveError(daemonPid))
        && h.files == old(h.files)
        && h.live == h.Terminated(old(h.live), p)
        && h.trace == old(h.trace) + [Op.Write(pid, daemonPid), Op.Signal(p)]
      ensures pid in h.writable ==>
        && h.live == old(h.live) - h.doomed
        && initialized == (p !in h.doomed)
        && (initialized ==>
              && errors == old(errors)
              && h.files == old(h.files)[pid := daemonPid]
              && CurrentPid(h) == p && h.Probe(CurrentPid(h))
              && h.trace == old(h.trace) + [Op.Write(pid, daemonPid), Op.Pause])
        && (!initialized ==>
              && errors == Some(DiedError)
              && h.files == old(h.files)[pid := ""]
              && h.trace == old(h.trace) + [Op.Write(pid, daemonPid), Op.Pause, Op.Write(pid, "")])
      ensures old(PidFileOk(h.files, pid)) ==> PidFileOk(h.files, pid)
    {
      initialized := false;
      SavedPidFileOk(h.files, pid, p);
      IntCastOfDecimal(p);
      assert IntCast(daemonPid) == p;
      var written := h.Put(pid, daemonPid);
      if written.None? || written == Some(0) {
        h.Kill(IntCast(daemonPid));
        errors := Some(SaveError(daemonPid));
        return;
      }
      h.Sleep();
      initialized := CheckPid(IntCast(daemonPid), h);
      if !initialized {
        var _ := h.Put(pid, "");
        errors := Some(DiedError);
      }
    }
  }

  /** Stopping twice: once a stop has returned true, a second stop returns true as well and
      changes neither the files nor the processes. */
  method StopTwice(d: PHPDaemon, h: Host)
    returns (first: bool, second: bool, ghost betweenFiles: map<string, string>, ghost betweenLive: set<int>)
    modifies d`errors, h
    ensures first ==> second && h.files == betweenFiles && h.live == betweenLive
  {
    first := d.Stop(h);
    betweenFiles, betweenLive := h.files, h.live;
    second := d.Stop(h);
  }

  /** `getCurrentPID` reads a well-formed PID file exactly: 0 when it is absent or empty,
      otherwise the PID whose decimal form it holds. */
  lemma CurrentPidOfWellFormedFile(d: PHPDaemon, h: Host)
    requires PidFileOk(h.files, d.pid)
    ensures d.CurrentPid(h) == 0 <==> d.pid !in h.files || h.files[d.pid] == ""
    ensures d.CurrentPid(h) != 0 ==> h.files[d.pid] == Decimal(d.CurrentPid(h))
  {
    if d.pid in h.files && h.files[d.pid] != "" {
      var q: nat :| q > 0 && h.files[d.pid] == Decimal(q);
      assert d.CurrentPid(h) == q;
    }
  }

  /** Every outcome of the launch leaves the PID file well formed. */
  lemma LaunchedKeepsPidFileOk(h: Host, cmd: string, pid: string, script: string,
                               fs0: map<string, string>, live0: set<int>, trace0: seq<Op>, errors0: Option<string>,
                               fs: map<string, string>, live: set<int>, trace: seq<Op>, errors: Option<string>,
                               initialized: bool)
    requires Launched(h, cmd, pid, script, fs0, live0, trace0, errors0, fs, live, trace, errors, initialized)
    requires PidFileOk(fs0, pid)
    ensures PidFileOk(fs, pid)
  {
    if h.spawns.Some? && h.spawns.value > 0 {
      SavedPidFileOk(fs0, pid, h.spawns.value);
    }
  }
}
