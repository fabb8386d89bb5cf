/** The world the daemon acts on, reduced to what it observes: a file system of flat text
    files, a process table, and a launcher. Whether `touch`, `chmod` and `file_put_contents`
    succeed on a path, whether a process survives SIGTERM or dies right after it was started,
    and which PID the launcher hands out are fixed answers of the host (its `const` fields);
    the files, the live processes and the record of every effect are its state. */
module Host {
  import opened PhpStrings

  datatype Option<T> = None | Some(value: T)

  /** One effect on the world, in the order the daemon performs it. Probes and reads are
      queries and are not recorded. */
  datatype Op =
    | Touch(path: string)
    | Chmod(path: string, mode: int)
    | Write(path: string, data: string)
    | Launch(command: string)
    | Signal(pid: int)
    | Pause

  const PidFileMode := 384  // 0600
  const LogFileMode := 420  // 0644

  class Host {
    /** Paths that `is_dir` reports as directories. */
    const dirs: set<string>
    /** Paths on which `touch`, `chmod` and `file_put_contents` succeed. */
    const touchable: set<string>
    const chmodable: set<string>
    const writable: set<string>
    /** Processes that ignore the termination signal. */
    const stubborn: set<int>
    /** Processes that exit on their own within the start-up grace interval. */
    const doomed: set<int>
    /** The PID the launcher reports for a spawned command; None when spawning fails. */
    const spawns: Option<nat>

    /** The file system: path to contents. */
    var files: map<string, string>
    /** The PIDs of the running processes. */
    var live: set<int>
    /** Every effect performed so far. */
    var trace: seq<Op>

    constructor (dirs: set<string>, touchable: set<string>, chmodable: set<string>,
                 writable: set<string>, stubborn: set<int>, doomed: set<int>,
                 spawns: Option<nat>, files: map<string, string>, live: set<int>)
      ensures this.dirs == dirs && this.touchable == touchable && this.chmodable == chmodable
      ensures this.writable == writable && this.stubborn == stubborn && this.doomed == doomed
      ensures this.spawns == spawns
      ensures this.files == files && this.live == live && this.trace == []
    {
      this.dirs, this.touchable, this.chmodable, this.writable := dirs, touchable, chmodable, writable;
      this.stubborn, this.doomed, this.spawns := stubborn, doomed, spawns;
      this.files, this.live, this.trace := files, live, [];
    }

    /** `is_dir(p)`; the empty path is never a directory. */
    predicate IsDir(p: string) {
      p != "" && p in dirs
    }

    /** The process probe `ps -p n | grep n -c`: a positive PID in the process table. */
    predicate Probe(n: int)
      reads this
    {
      n > 0 && n in live
    }

    /** The files after a `touch(p)`: a successful touch creates a missing file empty and
        leaves an existing one as it is. */
    function Touched(fs: map<string, string>, p: string): map<string, string> {
      if p in touchable && p !in fs then fs[p := ""] else fs
    }

    /** The files after `file_put_contents(p, data)`. */
    function Written(fs: map<string, string>, p: string, data: string): map<string, string> {
      if p in writable then fs[p := data] else fs
    }

    /** The process table after SIGTERM to `n`. */
    function Terminated(ps: set<int>, n: int): set<int> {
      if n in stubborn then ps else ps - {n}
    }

    /** `touch(p)`. */
    method Touch(p: string) returns (ok: bool)
      modifies this
      ensures ok == (p in touchable)
      ensures files == Touched(old(files), p)
      ensures live == old(live) && trace == old(trace) + [Op.Touch(p)]
    {
      ok := p in touchable;
      files := Touched(files, p);
      trace := trace + [Op.Touch(p)];
    }

    /** `chmod(p, mode)`: changes no contents. */
    method Chmod(p: string, mode: int) returns (ok: bool)
      modifies this
      ensures ok == (p in chmodable)
      ensures files == old(files) && live == old(live) && trace == old(trace) + [Op.Chmod(p, mode)]
    {
      ok := p in chmodable;
      trace := trace + [Op.Chmod(p, mode)];
    }

    /** `file_put_contents(p, data)`: the number of bytes written, or None for `false`. */
    method Put(p: string, data: string) returns (written: Option<nat>)
      modifies this
      ensures written == if p in writable then Some(|data|) else None
      ensures files == Written(old(files), p, data)
      ensures live == old(live) && trace == old(trace) + [Op.Write(p, data)]
    {
      written := if p in writable then Some(|data|) else None;
      files := Written(files, p, data);
      trace := trace + [Op.Write(p, data)];
    }

    /** `exec("… & echo $! &")`: the last line of output is the decimal PID of the spawned
        process, or nothing when spawning fails; a spawned process with a positive PID is
        running. An output of `0` stands for a launcher that printed a falsy line: no process
        0 enters the process table. */
    method Spawn(command: string) returns (output: string)
      modifies this
      ensures output == if spawns.Some? then Decimal(spawns.value) else ""
      ensures live == if spawns.Some? && spawns.value > 0 then old(live) + {spawns.value} else old(live)
      ensures files == old(files) && trace == old(trace) + [Op.Launch(command)]
    {
      if spawns.Some? {
        output := Decimal(spawns.value);
        if spawns.value > 0 {
          live := live + {spawns.value};
        }
      } else {
        output := "";
      }
      trace := trace + [Op.Launch(command)];
    }

    /** `exec('kill ' . n)`: sends the termination signal without waiting for it. */
    method Kill(n: int)
      modifies this
      ensures live == Terminated(old(live), n)
      ensures files == old(files) && trace == old(trace) + [Op.Signal(n)]
    {
      live := Terminated(live, n);
      trace := trace + [Op.Signal(n)];
    }

    /** `usleep(5000)`: the processes that crash on start-up are gone afterwards. */
    method Sleep()
      modifies this
      ensures live == old(live) - doomed
      ensures files == old(files) && trace == old(trace) + [Op.Pause]
    {
      live := live - doomed;
      trace := trace + [Op.Pause];
    }
  }
}
