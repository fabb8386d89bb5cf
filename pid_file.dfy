/** The invariant both daemons keep on their PID file, and the two steps that keep it: the
    file never holds anything but nothing or the decimal form of one positive PID. */
module PidFile {
  import opened PhpStrings
  import opened Host

  /** What the PID file may hold between calls: nothing (it is absent or empty) or the
      decimal form of one positive PID. */
  ghost predicate PidFileOk(fs: map<string, string>, pid: string) {
    pid !in fs || fs[pid] == "" || exists p: nat :: p > 0 && fs[pid] == Decimal(p)
  }

  /** A touch keeps the PID file as it is, or creates it empty. */
  lemma TouchedKeepsPidFileOk(h: Host, fs: map<string, string>, pid: string, p: string)
    requires PidFileOk(fs, pid)
    ensures PidFileOk(h.Touched(fs, p), pid)
  {
    if pid in fs && fs[pid] != "" {
      var q: nat :| q > 0 && fs[pid] == Decimal(q);
      assert h.Touched(fs, p)[pid] == Decimal(q);
    }
  }

  /** Saving a positive PID, or emptying the file, leaves it well formed. */
  lemma SavedPidFileOk(fs: map<string, string>, pid: string, p: nat)
    requires p > 0
    ensures PidFileOk(fs[pid := Decimal(p)], pid)
    ensures PidFileOk(fs[pid := ""], pid)
  {
    assert fs[pid := Decimal(p)][pid] == Decimal(p);
  }
}
