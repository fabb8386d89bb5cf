# PHPDaemon in Dafny

PHPDaemon wraps a script so that it runs in the background. It starts the script through
a shell, with its output redirected to a log sink. It keeps the new process id in a
hidden PID file in the script path, which it derives from the script reference by removing
the script's base name. It asks the process table whether that process is still alive,
and stops it by signalling it and emptying the PID file.

The repository ships the class twice, and both are modelled:

- `lib/PHPDaemon.php` becomes module `Daemon`. It takes options for logging and script
  arguments, falls back to `chmod` when `touch` fails, and records every failure in
  `$error`.
- `lib/PHPDaemon/PHPDaemon.php` becomes module `NamespacedDaemon`. It takes no options,
  always logs to `.{script}.log`, only touches its files, and lets a failing `initialize`
  escape from the constructor as an exception.

The other files:

- `php_strings.dfy` (module `PhpStrings`) models the PHP string functions the daemon
  relies on: `preg_match_all('/(\S+)/')` with `implode`, `basename`, `str_replace` with one
  search string, the `(int)` cast of a PID file's contents, the decimal PID printed by
  `echo $!`, and string truthiness.
- `pid_file.dfy` (module `PidFile`) holds the invariant both classes keep on the PID
  file, `PidFile.PidFileOk`, and the two lemmas about single steps that keep it.
- `host.dfy` (module `Host`) models the machine as a class `Host`:
  - some fixed answers: which paths `is_dir` accepts; where `touch`, `chmod` and
    `file_put_contents` succeed; which processes ignore SIGTERM; which ones die during the
    start-up pause; which PID the launcher reports;
  - three pieces of mutable state: the files, the set of live PIDs, and the trace of
    every effect (`touch`, `chmod`, write, launch, signal, pause) in order.

Both daemon classes are Dafny classes whose fields are updated in place. Each method
states its new fields, the new files, the new processes and the exact trace it appends.
The daemon's properties are proved against specification functions such as `LogSink`,
`InitFailure`, `InitTrace`, `InitFiles` and `Launched`. Both classes keep one invariant
of the PID file, `PidFile.PidFileOk`: the file is absent, empty, or holds the decimal form
of one positive PID. Every method that changes the files preserves it.

Two behaviours of the code are worth noting:

- `lib/PHPDaemon.php` builds the PID path as `"{$script_path}/.{$script}.pid"`. The script
  path is either empty or ends in `/` (`PhpStrings.ScriptPathEndsInSlash`), so:
  - `/tmp/jobs/worker.sh` gets `/tmp/jobs//.worker.sh.pid` (`Daemon.PidPathOfJobsWorker`);
  - a bare name such as `worker.sh` has an empty script path, so its PID file is
    `/.worker.sh.pid` and its default log file `/worker.sh.log`, both in the root
    directory (`Daemon.PidPathOfBareName`).
- `str_replace` removes every occurrence of the base name, not only the last one. A
  reference such as `/srv/worker/worker` therefore gets the script path `/srv//`, and its
  PID file lands in `/srv/` rather than next to the script
  (`PhpStrings.StrReplaceRemovesEveryOccurrence`). Both classes do this.
- `kill` empties the PID file before it asks the probe again, whatever that probe
  answers.

## Model

| member | source | states |
|---|---|---|
| PhpStrings.Tokens | lib/PHPDaemon.php:250 | the matches of `preg_match_all('/(\S+)/')`, characterised by `TokensHead`, `TokensAreWords`, `TokensKeepEveryNonSpace` and `TokensOfJoin` |
| PhpStrings.SkipSpacesIsSuffix | lib/PHPDaemon.php:250 | dropping leading whitespace leaves a suffix; what was dropped is all whitespace; the rest starts with non-whitespace |
| PhpStrings.WordIsRun | lib/PHPDaemon.php:250 | a match of `\S+` is the longest whitespace-free prefix, followed by whitespace or the end |
| PhpStrings.FirstWordIsRun | lib/PHPDaemon.php:250 | the first word sits right after the leading whitespace and is followed by whitespace or the end; it is empty exactly when the input is all whitespace |
| PhpStrings.TokensHead | lib/PHPDaemon.php:250-254 | the first match is the first word after the leading whitespace; there are no matches exactly when only whitespace is left |
| PhpStrings.TokensAreWords | lib/PHPDaemon.php:250 | every match of `/(\S+)/` is a non-empty, whitespace-free run |
| PhpStrings.TokensKeepEveryNonSpace | lib/PHPDaemon.php:250 | the matches, concatenated, are the input with every whitespace character removed: none lost, none invented |
| PhpStrings.TokensOfJoin | lib/PHPDaemon.php:250-256 | words joined by single spaces (`implode(' ', …)`) split back into exactly those words |
| PhpStrings.Join | lib/PHPDaemon.php:256 | `implode(' ', …)`: `TokensOfJoin` shows the joined words split back into exactly those words, and `ExtractOfJoinedWords` that `extract` takes the first as the script and re-joins the rest as the arguments |
| PhpStrings.Basename | lib/PHPDaemon.php:276 | PHP's `basename` without a suffix, characterised by `BasenameIsLastName`, `BasenameOfPath` and `SplitPath` |
| PhpStrings.TrimSlashes | lib/PHPDaemon.php:276 | the trimmed path is a prefix not ending in '/', and only slashes were cut |
| PhpStrings.LastSegmentIsSuffix | lib/PHPDaemon.php:276 | the last segment is the longest slash-free suffix |
| PhpStrings.BasenameIsLastName | lib/PHPDaemon.php:276 | `basename` has no '/' and is empty exactly when the path holds only slashes |
| PhpStrings.LastSegmentOfPath | lib/PHPDaemon.php:276 | after a directory part ending in '/', the last segment is the slash-free name |
| PhpStrings.BasenameOfPath | lib/PHPDaemon.php:276 | `basename(dir/ . name)` is `name` |
| PhpStrings.SplitPath | lib/PHPDaemon.php:276 | every path is a directory part (empty or ending in '/'), its basename and a run of trailing slashes |
| PhpStrings.StrReplace | lib/PHPDaemon.php:278 | `str_replace` with one search string, characterised by `StrReplaceWithoutOccurrence`, `StrReplaceAfterSlash`, `StrReplaceKeepsLastSlash` and `StrReplaceRemovesEveryOccurrence` |
| PhpStrings.StrReplaceWithoutOccurrence | lib/PHPDaemon.php:278 | where the search string does not occur, `str_replace` changes nothing |
| PhpStrings.StrReplaceAfterSlash | lib/PHPDaemon.php:278 | a slash-free search string is replaced separately on each side of a directory part ending in '/' |
| PhpStrings.StrReplaceOfSlashes | lib/PHPDaemon.php:278 | a run of slashes holds no slash-free search string, so `str_replace` keeps it |
| PhpStrings.StrReplaceKeepsLastSlash | lib/PHPDaemon.php:278 | removing a slash-free string keeps a final '/' |
| PhpStrings.StrReplaceOfSplitPath | lib/PHPDaemon.php:276-278 | removing the basename from directory part, basename and trailing slashes leaves nothing or something ending in '/' |
| PhpStrings.ScriptPathEndsInSlash | lib/PHPDaemon.php:276-278 | the script path `str_replace(basename($s), '', $s)` is empty or ends in '/' |
| PhpStrings.DirectoryAndNameRebuildPath | lib/PHPDaemon.php:276-278 | script path plus script gives back the reference when the name does not occur in its directory part |
| PhpStrings.StrReplaceRemovesEveryOccurrence | lib/PHPDaemon.php:276-278 | a reference `d/name/name` whose directory part `d` does not hold the name (such as `/srv/worker/worker`) has basename `name` and script path `d//` (`/srv//`), which no longer rebuilds the reference |
| PhpStrings.BasenameAndDirectoryOfJobsWorker | lib/PHPDaemon/PHPDaemon.php:205-206 | `/tmp/jobs/worker.sh` splits into `worker.sh` and `/tmp/jobs/` |
| PhpStrings.IntCast | lib/PHPDaemon.php:208 | the `(int)` cast of the PID file's contents, characterised by `LeadingDigits`, `IntCastOfDecimal` and `IntCastOfEveryDecimal` |
| PhpStrings.LeadingDigits | lib/PHPDaemon.php:208 | the digits read by `(int)` are the longest all-digit prefix |
| PhpStrings.Decimal | lib/PHPDaemon.php:329-331 | the PID printed by `echo $!` is non-empty, all digits, with no leading zero when positive |
| PhpStrings.DigitsValueOfDecimal | lib/PHPDaemon.php:208 | the value of a number's decimal digits is the number |
| PhpStrings.IntCastOfDecimal | lib/PHPDaemon.php:208 | `(int)` of a written PID gives the PID back |
| PhpStrings.IntCastOfEveryDecimal | lib/PHPDaemon.php:208 | the same, for every PID at once |
| PhpStrings.Truthy | lib/PHPDaemon.php:100-104 | PHP truthiness of a string, as `if ($script)` and `if ($binary)` use it (also lib/PHPDaemon.php:331 and lib/PHPDaemon/PHPDaemon.php:88-92, 253-265): false exactly for `""` and `"0"`; `DecimalTruthy` states what it means for a printed PID |
| PhpStrings.DecimalTruthy | lib/PHPDaemon.php:331 | a printed PID is truthy exactly when it is not 0 |
| Host.Host.IsDir | lib/PHPDaemon.php:132-136 | `is_dir` as a lookup among the fixed set of directories; never true of the empty path; `LogSink` states how it chooses the log directory |
| Host.Host.Touch | lib/PHPDaemon.php:144 | `touch` succeeds exactly on touchable paths, creates a missing file empty, and keeps an existing file's contents |
| Host.Host.Chmod | lib/PHPDaemon.php:144 | `chmod` succeeds exactly on chmodable paths and changes no contents |
| Host.Host.Put | lib/PHPDaemon.php:335 | `file_put_contents` writes the data and returns its length, or returns false on unwritable paths and leaves the files alone |
| Host.Host.Probe | lib/PHPDaemon.php:179 | the `ps`/`grep` probe as a lookup of a positive PID in the process table; characterised by `CheckPid`, `Kill` and `Stop` of both classes |
| Host.Host.Spawn | lib/PHPDaemon.php:329 | the launcher prints the new PID, which is then live, or prints nothing; an output of `0` adds no process |
| Host.Host.Kill | lib/PHPDaemon.php:221 | `kill` removes the process unless it ignores the signal |
| Host.Host.Sleep | lib/PHPDaemon.php:341 | after the pause, the processes that die on start-up are gone |
| Daemon.Extract | lib/PHPDaemon.php:244-260 | the script and arguments of a reference, characterised by `ExtractScriptIsFirstRun`, `ExtractArgumentsAreOtherRuns` and `ExtractOfJoinedWords` |
| Daemon.ExtractScriptIsFirstRun | lib/PHPDaemon.php:244-260 | the script is the first maximal whitespace-free run of the reference, at its position; it is empty exactly when the reference is all whitespace |
| Daemon.ExtractArgumentsAreOtherRuns | lib/PHPDaemon.php:250-256 | the arguments split back into exactly the runs after the first |
| Daemon.ExtractOfJoinedWords | lib/PHPDaemon.php:244-260 | a reference of words separated by single spaces gives its first word as the script and the other words, joined the same way, as the arguments |
| Daemon.PidPath | lib/PHPDaemon.php:125 | `"{$script_path}/.{$script}.pid"`, characterised by `PidPathIdentifiesScript`, `PidPathOfJobsWorker` and `LogSinkIsNotPidFile` |
| Daemon.PidPathIdentifiesScript | lib/PHPDaemon.php:125 | two slash-free script names share a PID file only if they have the same script path and name |
| Daemon.PidPathOfJobsWorker | lib/PHPDaemon.php:125 | `/tmp/jobs/worker.sh` keeps its PID in `/tmp/jobs//.worker.sh.pid` |
| Daemon.PidPathOfBareName | lib/PHPDaemon.php:125-134 | a bare, slash-free name `s` is its own script with an empty script path, so its PID file is `/.s.pid` and, with logging on and no log directory, its log is `/s.log` |
| Daemon.LaunchCommand | lib/PHPDaemon.php:327-328 | the shell command of `start`; `Start` states that it is the command the launch records |
| Daemon.LogSink | lib/PHPDaemon.php:127-143 | non-empty options replace both log fields; logging off means `/dev/null`; logging on means `{script}.log` in the given directory if `is_dir` accepts it, else in the script's directory |
| Daemon.LogSinkIsNotPidFile | lib/PHPDaemon.php:125-143 | the log sink is never the PID file |
| Daemon.InitFailure | lib/PHPDaemon.php:144-151 | the process error exactly when neither `touch` nor `chmod` works on the PID file; no error exactly when both files can be set up |
| Daemon.InitTraceChmodFollowsFailedTouch | lib/PHPDaemon.php:144-151 | `initialize` only touches and chmods; each chmod directly follows the failed touch of the same file; with logging off only the PID file is touched |
| PidFile.PidFileOk | lib/PHPDaemon.php:201-209 | the PID file is absent, empty, or holds the decimal form of one positive PID |
| PidFile.TouchedKeepsPidFileOk | lib/PHPDaemon.php:144 | a `touch` keeps a well-formed PID file well formed |
| Daemon.InitFilesKeepPidFileOk | lib/PHPDaemon.php:144-151 | `initialize` keeps the PID file well formed |
| PidFile.SavedPidFileOk | lib/PHPDaemon.php:335-344 | writing a positive PID, or emptying the file, leaves it well formed |
| Daemon.CurrentPidOfWellFormedFile | lib/PHPDaemon.php:201-209 | on a well-formed PID file, `getCurrentPID` is 0 exactly when the file is absent or empty, and otherwise the PID the file holds |
| Daemon.EmptyPidFileIsNotAlive | lib/PHPDaemon.php:201-209 | a daemon whose PID file is absent or empty is not alive |
| Daemon.PHPDaemon.constructor | lib/PHPDaemon.php:98-110 | a truthy script and binary are set; then `initialize` runs with the default log fields (`true`, `''`); its failure is recorded, not raised; the PID file stays well formed |
| Daemon.PHPDaemon.SetScript | lib/PHPDaemon.php:270-291 | the script is the basename of the first run, the arguments are the other runs, the script path is the first run with the name removed; it always returns true |
| Daemon.PHPDaemon.SetBinary | lib/PHPDaemon.php:234-237 | the binary is the given one |
| Daemon.PHPDaemon.Initialize | lib/PHPDaemon.php:121-164 | the PID path and the log sink; true exactly when no step failed; else the error is the first failure; the files and the trace are those of `InitFiles` and `InitTrace`; the PID file stays well formed |
| Daemon.PHPDaemon.ChooseLog | lib/PHPDaemon.php:127-143 | the log fields become `LogSink` of their old values and the options |
| Daemon.PHPDaemon.CreateFiles | lib/PHPDaemon.php:144-163 | touch, else chmod, the PID file, then the log file when logging is on; it stops at the first failure; it keeps the PID file well formed |
| Daemon.PHPDaemon.CurrentPid | lib/PHPDaemon.php:201-209 | 0 without a PID file or with an empty one; a written PID reads back as itself |
| Daemon.PHPDaemon.CheckPid | lib/PHPDaemon.php:174-194 | the probe's answer; a negative answer records the no-process message |
| Daemon.PHPDaemon.Kill | lib/PHPDaemon.php:217-226 | a live process is signalled and its PID file emptied; a dead one is left alone; the result is the second probe; the PID file stays well formed |
| Daemon.PHPDaemon.IsAlive | lib/PHPDaemon.php:298-301 | the probe of the PID in the PID file |
| Daemon.PHPDaemon.Stop | lib/PHPDaemon.php:308-311 | true exactly when the process is not alive afterwards; after a true stop the PID file names no live process; the PID file stays well formed |
| Daemon.PHPDaemon.Start | lib/PHPDaemon.php:322-357 | the four outcomes: no PID; PID not saved, so the process is signalled; died during the pause, so the PID file is emptied; running, with the PID file reading back the live PID; in each the PID file stays well formed |
| Daemon.PHPDaemon.KeepPid | lib/PHPDaemon.php:334-345 | after a launch with a positive PID: an unwritable PID file means the process is signalled and the save error recorded; otherwise, after the pause, either the process is alive and its PID reads back from the PID file, or it died and the file is emptied; the PID file stays well formed |
| Daemon.StopTwice | lib/PHPDaemon.php:308-311 | once a stop returns true, a second stop returns true and leaves the files and the processes alone |
| NamespacedDaemon.PidPath | lib/PHPDaemon/PHPDaemon.php:109 | `"{$script_path}.{$script}.pid"`, characterised by `PidFileIsNotLogFile`, `PidPathIdentifiesScript` and `PidPathOfJobsWorker` |
| NamespacedDaemon.LogPath | lib/PHPDaemon/PHPDaemon.php:110 | `"{$script_path}.{$script}.log"`, characterised by `PidFileIsNotLogFile` and `LogPathIdentifiesScript` |
| NamespacedDaemon.PidFileIsNotLogFile | lib/PHPDaemon/PHPDaemon.php:109-110 | the PID file of one script is never the log file of another |
| NamespacedDaemon.DottedNameIdentifiesScript | lib/PHPDaemon/PHPDaemon.php:109-110 | a directory part (empty or ending in '/'), a dot and a slash-free name determine both |
| NamespacedDaemon.PidPathIdentifiesScript | lib/PHPDaemon/PHPDaemon.php:109 | for slash-free names and script paths empty or ending in '/', equal PID files mean equal script paths and equal names |
| NamespacedDaemon.LogPathIdentifiesScript | lib/PHPDaemon/PHPDaemon.php:110 | the same for log files |
| NamespacedDaemon.SetScriptPidFileIdentifiesScript | lib/PHPDaemon/PHPDaemon.php:205-206 | two references that `setScript` maps to the same PID file have the same name and the same script path |
| NamespacedDaemon.PidPathOfJobsWorker | lib/PHPDaemon/PHPDaemon.php:109 | `/tmp/jobs/worker.sh` keeps its PID in `/tmp/jobs/.worker.sh.pid` |
| NamespacedDaemon.LaunchCommand | lib/PHPDaemon/PHPDaemon.php:262 | the shell command of `start`; `Launch` states that it is the command the launch records |
| NamespacedDaemon.InitTraceShape | lib/PHPDaemon/PHPDaemon.php:112 | only touches; the PID file first; the log file only after the PID file was touched; failure exactly when the last touch failed |
| NamespacedDaemon.InitFilesIdempotent | lib/PHPDaemon/PHPDaemon.php:86-98 | initialising a second time on the same paths changes no file |
| NamespacedDaemon.InitFilesOnlyAddsEmptyFiles | lib/PHPDaemon/PHPDaemon.php:112 | initialising keeps every existing file's contents and adds only the empty PID and log files |
| NamespacedDaemon.InitFilesKeepPidFileOk | lib/PHPDaemon/PHPDaemon.php:112 | `initialize` keeps the PID file well formed |
| NamespacedDaemon.Launched | lib/PHPDaemon/PHPDaemon.php:258-290 | the four outcomes of the `try` block of `start`, as a relation on the state before and after; characterised by `Launch` and `LaunchedKeepsPidFileOk` |
| NamespacedDaemon.LaunchedKeepsPidFileOk | lib/PHPDaemon/PHPDaemon.php:269-278 | every outcome of the launch leaves the PID file well formed |
| NamespacedDaemon.CurrentPidOfWellFormedFile | lib/PHPDaemon/PHPDaemon.php:154-162 | on a well-formed PID file, `getCurrentPID` is 0 exactly when the file is absent or empty, and otherwise the PID the file holds |
| NamespacedDaemon.PHPDaemon.Blank | lib/PHPDaemon/PHPDaemon.php:23-77 | the property defaults: empty strings, log `/dev/null`, no errors |
| NamespacedDaemon.PHPDaemon.New | lib/PHPDaemon/PHPDaemon.php:86-98 | the constructor throws unless both files can be touched; an object that is obtained has its script, paths and binary set and no error; the PID file stays well formed |
| NamespacedDaemon.PHPDaemon.Initialize | lib/PHPDaemon/PHPDaemon.php:107-116 | both paths come from the script; it touches the PID file, and the log file only after that succeeded; the exception message when either fails; the PID file stays well formed |
| NamespacedDaemon.PHPDaemon.SetScript | lib/PHPDaemon/PHPDaemon.php:200-220 | basename and script path of the reference, then `initialize`, whose failure is recorded; it always returns true; the PID file stays well formed |
| NamespacedDaemon.PHPDaemon.SetBinary | lib/PHPDaemon/PHPDaemon.php:187-190 | the binary is the given one |
| NamespacedDaemon.PHPDaemon.CurrentPid | lib/PHPDaemon/PHPDaemon.php:154-162 | 0 without a PID file or with an empty one; a written PID reads back as itself |
| NamespacedDaemon.PHPDaemon.CheckPid | lib/PHPDaemon/PHPDaemon.php:126-147 | the probe's answer; a negative answer records the no-process message |
| NamespacedDaemon.PHPDaemon.Kill | lib/PHPDaemon/PHPDaemon.php:170-179 | a live process is signalled and its PID file emptied; a dead one is left alone; the result is the second probe; the PID file stays well formed |
| NamespacedDaemon.PHPDaemon.IsAlive | lib/PHPDaemon/PHPDaemon.php:227-230 | the probe of the PID in the PID file |
| NamespacedDaemon.PHPDaemon.Stop | lib/PHPDaemon/PHPDaemon.php:237-240 | true exactly when the process is not alive afterwards; after a true stop the PID file names no live process; the PID file stays well formed |
| NamespacedDaemon.PHPDaemon.Start | lib/PHPDaemon/PHPDaemon.php:251-291 | a truthy script is set first, including its `initialize`; then the launch outcomes start from the state `setScript` left; a true start leaves the live PID readable; the PID file stays well formed |
| NamespacedDaemon.PHPDaemon.Launch | lib/PHPDaemon/PHPDaemon.php:258-290 | the four outcomes of the launch, as `Launched` states them; the PID file stays well formed |
| NamespacedDaemon.PHPDaemon.KeepPid | lib/PHPDaemon/PHPDaemon.php:269-280 | the same three outcomes after a launch with a positive PID; the PID file stays well formed |
| NamespacedDaemon.StopTwice | lib/PHPDaemon/PHPDaemon.php:237-240 | once a stop returns true, a second stop returns true and leaves the files and the processes alone |

## Left out

- Daemon.PHPDaemon.CheckPid: the probe `ps -p $pid | grep $pid -c` is modelled as an exact lookup of a positive PID in the process table (`Host.Probe`). It does not model `grep` counting other lines that happen to contain the digits.
- NamespacedDaemon.PHPDaemon.CheckPid: the same simplification of the probe.
- PhpStrings.LeadingDigits: the `(int)` cast is modelled only as far as the PID file needs it: the leading decimal digits, else 0. Signs, leading whitespace, exponents and integer overflow are not modelled.
- The shell commands are recorded in the trace as text and are not interpreted. `exec`'s `$output` array is never read by the source and is not modelled.
- `usleep(5000)` is modelled by the processes that die during the pause (`Host.doomed`), not by time.
- File permission bits are not modelled; a `chmod` records its mode in the trace and changes no contents.
- `lib/PHPDaemon.php` options:
  - `(boolean)` and `(string)` casts of arbitrary PHP values are not modelled: the options datatype holds the values after the cast;
  - an options argument that is not an array behaves like an empty array, so it is represented by an empty `Options`.
- The exception `code` in the error records is always 0 and is not kept. The record is built as `array(...) + $this->_error` (`$this->_errors` in `lib/PHPDaemon/PHPDaemon.php`), and PHP's array `+` keeps the keys of the left operand, so the template adds nothing to it.
- The `try`/`catch` in `setScript` of `lib/PHPDaemon.php` catches nothing, because nothing inside it throws. The model has no catch branch there.
- `$status` of `lib/PHPDaemon/PHPDaemon.php` is never read or written and is not modelled.
- `basename` is modelled for '/'-separated paths without the suffix argument. Locale-dependent behaviour is not modelled.
- Concurrency is not modelled: other processes changing the PID file, or a PID being reused between the probe and the signal.
- index.php is not part of this model: it is a usage example that calls the class.
