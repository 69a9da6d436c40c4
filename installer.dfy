/**
 * The logic of the Windows dependency installer: the retried `download` and the
 * file it writes, `run_command`'s output normalisation and error conversion, the
 * Visual Studio install check and its bounded wait, the PATH extension and the
 * GPU instance-family test.
 *
 * The network, the file system, `subprocess` and `psutil` are inputs: what
 * `urlopen` answered, whether the destination is a directory, what a command
 * printed and exited with, whether an installer process was running at the k-th
 * look. `os.path.normpath` is a parameter.
 */
module Installer {
  import opened Base
  import opened Text
  import opened Paths
  import Retry

  /** `DEFAULT_SUBPROCESS_TIMEOUT`, also the bound of the Visual Studio wait in seconds. */
  const SubprocessTimeout := 3600

  /** The `tries`, `delay_s` and `backoff` that decorate `download`. */
  const DownloadTries := 5
  const DownloadDelay := 2
  const DownloadBackoff := 5

  /** The exceptions the modelled functions raise or let through. */
  datatype InstallError =
    | ValueErr                                              // `ValueError`, e.g. from `int(content_length)`
    | OSErr                                                 // `OSError`, `URLError` among them
    | HTTPErr                                               // `HTTPError`
    | CommandFailed(cmd: string, code: int, output: string) // the `RuntimeError` of `run_command`
    | CommandTimedOut                                       // `subprocess.TimeoutExpired`
    | VsInstallFailed(code: int)                            // the `RuntimeError` of `install_vs`
    | OtherErr

  /** The exceptions the retry around `download` catches: `(ValueError, OSError, HTTPError)`. */
  predicate DownloadCatches(e: InstallError) {
    e.ValueErr? || e.OSErr? || e.HTTPErr?
  }

  // ---------------------------------------------------------------- download

  /** The `content-length` header: absent or empty, not a number, or a number. */
  datatype Header = NoLength | BadLength | Length(n: int)

  /** What the world answered during one call of `download`. */
  datatype Fetch = Fetch(
    openError: Option<InstallError>,     // `urlopen(url)` raised
    header: Header,
    isHttpResponse: bool,             // `isinstance(c, http.client.HTTPResponse)`
    existingSize: Option<int>,        // the size of the file at the target, if one exists
    retrieveError: Option<InstallError>,  // `urlretrieve` or `shutil.move` raised
    tempPath: string)                 // the file `urlretrieve` chose when given none

  /**
   * The target of `download`: when `dest` is a non-empty directory, the last
   * segment of the URL's path joined to it and normalised; otherwise `dest` itself.
   */
  function LocalPath(urlPath: string, dest: Option<string>, destIsDir: bool,
                     normpath: string -> string): (p: Option<string>)
    ensures dest.None? ==> p.None?
    ensures !(dest.Some? && dest.value != [] && destIsDir) ==> p == dest
  {
    if dest.Some? && dest.value != [] && destIsDir then
      Some(normpath(PathJoin("Windows", dest.value, NtTail(urlPath))))
    else dest
  }

  /**
   * With a non-empty directory as `dest`, the target is the normalised join of `dest`
   * and the URL path's last segment: `dest`, at most one backslash, then that
   * separator-free segment, which ends the URL path.
   */
  lemma LocalPathJoinsLastSegment(urlPath: string, dest: string, normpath: string -> string)
    requires dest != []
    ensures var tail := NtTail(urlPath);
      var joined := PathJoin("Windows", dest, tail);
      && LocalPath(urlPath, Some(dest), true, normpath) == Some(normpath(joined))
      && (joined == dest + tail || joined == dest + "\\" + tail)
      && |tail| <= |urlPath| && urlPath[|urlPath| - |tail|..] == tail
      && forall i :: 0 <= i < |tail| ==> !IsNtSep(tail[i])
  {
  }

  /** One call of `download(url, dest)` with the world's answers `f`. */
  function DownloadOnce(urlPath: string, dest: Option<string>, destIsDir: bool,
                        normpath: string -> string, f: Fetch): (r: Retry.Outcome<string, InstallError>)
  {
    var localPath := LocalPath(urlPath, dest, destIsDir, normpath);
    var named := localPath.Some? && localPath.value != [];
    if f.openError.Some? then Retry.Raised(f.openError.value)
    else if f.isHttpResponse && f.header.BadLength? then Retry.Raised(ValueErr)
    else
      // `length` is None unless the header holds a number; None and 0 are both falsy
      var length := if f.isHttpResponse && f.header.Length? then f.header.n else 0;
      if length != 0 && named && f.existingSize == Some(length) then Retry.Returned(localPath.value)
      else if f.retrieveError.Some? then Retry.Raised(f.retrieveError.value)
      else if named then Retry.Returned(localPath.value)
      else Retry.Returned(f.tempPath)
  }

  /**
   * A failing `urlopen` raises its error, and an HTTP length that is not a number
   * raises `ValueError`. A successful call returns the target when there is one and
   * the file `urlretrieve` chose otherwise. When an HTTP response announced a nonzero length
   * equal to the size of the file already at the target, it returns that target
   * without fetching; only then does a fetch error not surface. Otherwise the
   * fetch decides: its error propagates, or the call returns.
   */
  lemma DownloadOnceResult(urlPath: string, dest: Option<string>, destIsDir: bool,
                           normpath: string -> string, f: Fetch)
    ensures var r := DownloadOnce(urlPath, dest, destIsDir, normpath, f);
      var localPath := LocalPath(urlPath, dest, destIsDir, normpath);
      var named := localPath.Some? && localPath.value != [];
      var alreadyThere := f.isHttpResponse && f.header.Length? && f.header.n != 0
                          && named && f.existingSize == Some(f.header.n);
      && (r.Returned? ==> r.value == if named then localPath.value else f.tempPath)
      && (r.Returned? && f.retrieveError.Some? ==> alreadyThere)
      && (f.openError.Some? ==> r == Retry.Raised(f.openError.value))
      && (f.openError.None? && f.isHttpResponse && f.header.BadLength? ==> r == Retry.Raised(ValueErr))
      && (f.openError.None? && alreadyThere ==> r == Retry.Returned(localPath.value))
      && (f.openError.None? && !(f.isHttpResponse && f.header.BadLength?) && !alreadyThere ==>
            (r.Raised? <==> f.retrieveError.Some?)
            && (f.retrieveError.Some? ==> r == Retry.Raised(f.retrieveError.value)))
      && (r.Raised? ==> r.error in {ValueErr} + (if f.openError.Some? then {f.openError.value} else {})
                                  + (if f.retrieveError.Some? then {f.retrieveError.value} else {}))
  {
  }

  /** `download` under its retry: at most five calls with the world's answers `fetches(k)`. */
  function DownloadRun(urlPath: string, dest: Option<string>, destIsDir: bool,
                       normpath: string -> string, fetches: nat -> Fetch): Retry.Run<string, InstallError>
  {
    Retry.Spec(DownloadTries, DownloadDelay, DownloadBackoff,
               (k: nat) => DownloadOnce(urlPath, dest, destIsDir, normpath, fetches(k)), DownloadCatches)
  }

  /**
   * The retried `download` calls at most five times, sleeps 2, 10, 50 and 250
   * seconds after the successive caught failures, and its outcome is that of its
   * last call; before the fifth call only an uncaught exception or a return stops it.
   */
  lemma DownloadRetrySchedule(urlPath: string, dest: Option<string>, destIsDir: bool,
                              normpath: string -> string, fetches: nat -> Fetch)
    ensures var r := DownloadRun(urlPath, dest, destIsDir, normpath, fetches);
      && 1 <= r.calls <= 5
      && r.sleeps == [2, 10, 50, 250][..r.calls - 1]
      && r.result == DownloadOnce(urlPath, dest, destIsDir, normpath, fetches(r.calls - 1))
      && (r.calls < 5 ==> !(r.result.Raised? && DownloadCatches(r.result.error)))
  {
    var attempt := (k: nat) => DownloadOnce(urlPath, dest, destIsDir, normpath, fetches(k));
    Retry.CallBound(DownloadTries, DownloadDelay, DownloadBackoff, attempt, DownloadCatches);
    Retry.SleepSchedule(DownloadTries, DownloadDelay, DownloadBackoff, attempt, DownloadCatches);
    var r := DownloadRun(urlPath, dest, destIsDir, normpath, fetches);
    assert Retry.Pow(5, 0) == 1 && Retry.Pow(5, 1) == 5 && Retry.Pow(5, 2) == 25 && Retry.Pow(5, 3) == 125;
    assert r.sleeps == [2, 10, 50, 250][..r.calls - 1];
  }

  // ---------------------------------------------------------------- run_command

  /** What `subprocess.check_output` saw: the exit status and the decoded output, or the timeout. */
  datatype Process = Exited(code: int, output: string) | TimedOut

  /** `s.replace("\r\n", "\n")`: the non-overlapping occurrences, found left to right. */
  function CrlfToLf(s: string): (r: string)
    ensures |r| <= |s|
  {
    if |s| >= 2 && s[0] == '\r' && s[1] == '\n' then "\n" + CrlfToLf(s[2..])
    else if s == [] then []
    else [s[0]] + CrlfToLf(s[1..])
  }

  /** An independent reading: keep every character except a `\r` that directly precedes a `\n`. */
  function DropCrBeforeLf(s: string): string {
    if s == [] then []
    else (if |s| >= 2 && s[0] == '\r' && s[1] == '\n' then [] else [s[0]]) + DropCrBeforeLf(s[1..])
  }

  /** The two readings agree on every text. */
  lemma {:induction false} CrlfToLfDropsCr(s: string)
    ensures CrlfToLf(s) == DropCrBeforeLf(s)
    decreases |s|
  {
    if |s| >= 2 && s[0] == '\r' && s[1] == '\n' {
      CrlfToLfDropsCr(s[2..]);
      assert s[1..][0] == '\n' && s[1..][1..] == s[2..];
      assert DropCrBeforeLf(s[1..]) == [s[1]] + DropCrBeforeLf(s[2..]);
    } else if s != [] {
      CrlfToLfDropsCr(s[1..]);
    }
  }

  /** The replacement is a single pass: a `\r` before a `\r\n` survives next to the new `\n`. */
  lemma CrlfSinglePass()
    ensures CrlfToLf("\r\r\n") == "\r\n"
  {
    assert "\r\r\n"[1..] == "\r\n";
    assert "\r\n"[2..] == "";
  }

  /** Text without `\r` is returned unchanged. */
  lemma {:induction false} CrlfToLfNoCr(s: string)
    requires '\r' !in s
    ensures CrlfToLf(s) == s
    decreases |s|
  {
    if s != [] {
      CrlfToLfNoCr(s[1..]);
    }
  }

  /**
   * `run_command(cmd)`: the output with `\r\n` turned into `\n` when the command
   * exits with 0; a nonzero exit becomes the `RuntimeError` naming the command, its
   * status and its output; a timeout propagates.
   */
  function RunCommand(cmd: string, p: Process): (r: Result<string, InstallError>)
    ensures r.Ok? <==> p.Exited? && p.code == 0
    ensures r.Ok? ==> r.value == DropCrBeforeLf(p.output)
    ensures p.Exited? && p.code != 0 ==> r == Err(CommandFailed(cmd, p.code, p.output))
    ensures p.TimedOut? ==> r == Err(CommandTimedOut)
  {
    match p
    case TimedOut => Err(CommandTimedOut)
    case Exited(code, output) =>
      if code != 0 then Err(CommandFailed(cmd, code, output))
      else
        CrlfToLfDropsCr(output);
        Ok(CrlfToLf(output))
  }

  // ---------------------------------------------------------------- install_vs

  /** `install_vs`'s exit-status test: 0, or 3010 (restart required), is success. */
  function VsExitCheck(ret: int): (r: Result<Unit, InstallError>)
    ensures r.Ok? <==> ret == 0 || ret == 3010
    ensures r.Err? ==> r.error == VsInstallFailed(ret)
  {
    if ret == 3010 || ret == 0 then Ok(Unit) else Err(VsInstallFailed(ret))
  }

  /** The multiples of 60 below `n`, in increasing order: the seconds at which progress is logged. */
  function ProgressMarks(n: nat): (marks: seq<nat>)
    ensures forall t: int :: t in marks <==> 0 <= t < n && t % 60 == 0
    ensures forall i, j :: 0 <= i < j < |marks| ==> marks[i] < marks[j]
    ensures forall i :: 0 <= i < |marks| ==> marks[i] < n
  {
    if n == 0 then []
    else if (n - 1) % 60 == 0 then ProgressMarks(n - 1) + [n - 1]
    else ProgressMarks(n - 1)
  }

  /** A full wait logs progress exactly 60 times. */
  lemma {:induction false} ProgressMarksCount(n: nat)
    ensures |ProgressMarks(n)| == (n + 59) / 60
  {
    if n > 0 {
      ProgressMarksCount(n - 1);
    }
  }

  /** What the wait after the Visual Studio installer did. */
  datatype VsWait = VsWait(timer: nat, progress: seq<nat>, stillRunning: bool)

  /**
   * The wait ran while an installer process was seen (`probe(k)` is the k-th look at
   * the process list) and `timer` was below the timeout, one second per pass,
   * logged progress at every multiple of 60, and looked once more afterwards.
   */
  predicate WaitedFor(probe: nat -> bool, w: VsWait) {
    && w.timer <= SubprocessTimeout
    && (forall t :: 0 <= t < w.timer ==> probe(t))
    && (w.timer < SubprocessTimeout ==> !probe(w.timer))
    && w.progress == ProgressMarks(w.timer)
    && w.stillRunning == probe(w.timer + 1)
  }

  /** The `timer` loop of `install_vs`. */
  method WaitForVs(probe: nat -> bool) returns (w: VsWait)
    ensures WaitedFor(probe, w)
  {
    var timer: nat := 0;
    var progress: seq<nat> := [];
    while probe(timer) && timer < SubprocessTimeout
      invariant timer <= SubprocessTimeout
      invariant forall t :: 0 <= t < timer ==> probe(t)
      invariant progress == ProgressMarks(timer)
      decreases SubprocessTimeout - timer
    {
      if timer % 60 == 0 {
        progress := progress + [timer];
      }
      timer := timer + 1;
    }
    w := VsWait(timer, progress, probe(timer + 1));
  }

  /** A wait ends at the first look that sees no installer, or after 3600 passes. */
  lemma WaitEnds(probe: nat -> bool, w: VsWait)
    requires WaitedFor(probe, w)
    ensures w.timer == SubprocessTimeout || (!probe(w.timer) && forall t :: 0 <= t < w.timer ==> probe(t))
    ensures (forall t :: 0 <= t < SubprocessTimeout ==> probe(t)) ==> w.timer == SubprocessTimeout && |w.progress| == 60
  {
    if forall t :: 0 <= t < SubprocessTimeout ==> probe(t) {
      ProgressMarksCount(w.timer);
    }
  }

  /** The PowerShell command that renames the downloaded installer to `<its name>.exe`. */
  function RenameCommand(vsFilePath: string): string {
    var parts := Split(vsFilePath, '\\');
    "PowerShell Rename-Item -Path " + vsFilePath + " -NewName \"" + parts[|parts| - 1] + ".exe\""
  }

  /** The workloads and flags passed to the Visual Studio installer. */
  const VsArguments := " --add Microsoft.VisualStudio.Workload.ManagedDesktop"
    + " --add Microsoft.VisualStudio.Workload.NetCoreTools"
    + " --add Microsoft.VisualStudio.Workload.NetWeb"
    + " --add Microsoft.VisualStudio.Workload.Node"
    + " --add Microsoft.VisualStudio.Workload.Office"
    + " --add Microsoft.VisualStudio.Component.TypeScript.2.0"
    + " --add Microsoft.VisualStudio.Component.TestTools.WebLoadTest"
    + " --add Component.GitHub.VisualStudio"
    + " --add Microsoft.VisualStudio.ComponentGroup.NativeDesktop.Core"
    + " --add Microsoft.VisualStudio.Component.Static.Analysis.Tools"
    + " --add Microsoft.VisualStudio.Component.VC.CMake.Project"
    + " --add Microsoft.VisualStudio.Component.VC.140"
    + " --add Microsoft.VisualStudio.Component.Windows10SDK.15063.Desktop"
    + " --add Microsoft.VisualStudio.Component.Windows10SDK.15063.UWP"
    + " --add Microsoft.VisualStudio.Component.Windows10SDK.15063.UWP.Native"
    + " --add Microsoft.VisualStudio.ComponentGroup.Windows10SDK.15063"
    + " --wait --passive --norestart"

  /**
   * `install_vs` after the download: rename the file through `run_command`, run the
   * installer `<file>.exe` (exit status `ret`), check the status, then wait.
   */
  method InstallVs(vsFilePath: string, rename: Process, ret: int, probe: nat -> bool)
    returns (commands: seq<string>, r: Result<VsWait, InstallError>)
    ensures |commands| >= 1 && commands[0] == RenameCommand(vsFilePath)
    ensures RunCommand(RenameCommand(vsFilePath), rename).Err? ==>
              commands == [RenameCommand(vsFilePath)] && r.Err?
              && r.error == RunCommand(RenameCommand(vsFilePath), rename).error
    ensures RunCommand(RenameCommand(vsFilePath), rename).Ok? ==>
              && commands == [RenameCommand(vsFilePath), vsFilePath + ".exe" + VsArguments]
              && (r.Ok? <==> ret == 0 || ret == 3010)
              && (r.Err? ==> r.error == VsInstallFailed(ret))
              && (r.Ok? ==> WaitedFor(probe, r.value))
  {
    commands := [RenameCommand(vsFilePath)];
    var renamed := RunCommand(RenameCommand(vsFilePath), rename);
    if renamed.Err? {
      return commands, Err(renamed.error);
    }
    var installer := vsFilePath + ".exe";
    commands := commands + [installer + VsArguments];
    var checked := VsExitCheck(ret);
    if checked.Err? {
      return commands, Err(checked.error);
    }
    var w := WaitForVs(probe);
    r := Ok(w);
  }

  // ---------------------------------------------------------------- add_paths

  /** The three directories `add_paths` appends to the machine PATH. */
  const KitsBin := "C:\\Program Files" + " (x86)\\Windows Kits" + "\\10\\bin\\10.0" + ".16299.0\\x86"
  const OpenBlasBin := "C:\\Program Files" + "\\OpenBLAS-windows" + "-v0_2_19\\bin"
  const LlvmBin := "C:\\Program Files" + "\\LLVM\\bin"

  /** `current_path.rstrip()` followed by `;` and the three directories, `;`-separated. */
  function NewPath(currentPath: string): string {
    RStrip(currentPath) + ";" + KitsBin + ";" + OpenBlasBin + ";" + LlvmBin
  }

  /**
   * The new PATH's entries are the old ones, without trailing white space, followed
   * by exactly the three directories.
   */
  lemma NewPathEntries(currentPath: string)
    ensures Split(NewPath(currentPath), ';') == Split(RStrip(currentPath), ';') + [KitsBin, OpenBlasBin, LlvmBin]
  {
    assert ';' !in KitsBin && ';' !in OpenBlasBin && ';' !in LlvmBin;
    AppendedEntries(RStrip(currentPath), KitsBin, OpenBlasBin, LlvmBin);
  }

  /** Appending three `;`-free entries, each after a `;`, adds exactly those three entries. */
  lemma AppendedEntries(a: string, x: string, y: string, z: string)
    requires ';' !in x && ';' !in y && ';' !in z
    ensures Split(a + ";" + x + ";" + y + ";" + z, ';') == Split(a, ';') + [x, y, z]
  {
    AppendEntry(a, x);
    AppendEntry(a + ";" + x, y);
    AppendEntry(a + ";" + x + ";" + y, z);
  }

  /** Appending `;` and a `;`-free entry adds exactly that entry. */
  lemma AppendEntry(a: string, x: string)
    requires ';' !in x
    ensures Split(a + ";" + x, ';') == Split(a, ';') + [x]
  {
    SplitConcat(a, ';', x);
    NoSeparatorSplit(x, ';');
  }

  const PathKey := "'hklm:\\system\\currentcontrolset\\control\\session manager\\environment'"
  const GetPathCommand := "PowerShell (Get-Itemproperty -path " + PathKey + " -Name Path).Path"

  /** The PowerShell command that stores `newPath` as the machine PATH. */
  function SetPathCommand(newPath: string): string {
    "PowerShell Set-ItemProperty -path " + PathKey + " -Name Path -Value '" + newPath + "'"
  }

  /**
   * `add_paths`: read the PATH with one command, store the extended PATH with a
   * second; a failing command raises its `RuntimeError` and nothing further runs.
   */
  function AddPaths(read: Process, write: Process): (r: (seq<string>, Result<Unit, InstallError>))
    ensures RunCommand(GetPathCommand, read).Err? ==>
              r == ([GetPathCommand], Err(RunCommand(GetPathCommand, read).error))
    ensures RunCommand(GetPathCommand, read).Ok? ==>
              var command := SetPathCommand(NewPath(DropCrBeforeLf(read.output)));
              && r.0 == [GetPathCommand, command]
              && (r.1.Ok? <==> RunCommand(command, write).Ok?)
  {
    match RunCommand(GetPathCommand, read)
    case Err(e) => ([GetPathCommand], Err(e))
    case Ok(currentPath) =>
      var command := SetPathCommand(NewPath(currentPath));
      match RunCommand(command, write)
      case Err(e) => ([GetPathCommand, command], Err(e))
      case Ok(_) => ([GetPathCommand, command], Ok(Unit))
  }

  // ---------------------------------------------------------------- has_gpu

  const GpuFamilies := {"p2", "p3", "g4dn", "p3dn", "g3", "g2", "g3s"}

  /** `has_gpu`. `instanceType` is the decoded metadata answer, or None when reading it raised. */
  predicate HasGpu(instanceType: Option<string>) {
    instanceType.Some? && Split(instanceType.value, '.')[0] in GpuFamilies
  }

  /** An instance has a GPU exactly when its type is a GPU family or such a family followed by `.`. */
  lemma HasGpuMeaning(instanceType: string)
    ensures HasGpu(Some(instanceType)) <==>
              exists f :: f in GpuFamilies && (instanceType == f || StartsWith(instanceType, f + "."))
  {
    assert forall f :: f in GpuFamilies ==> '.' !in f;
    var family := Split(instanceType, '.')[0];
    if family in GpuFamilies {
      SplitHead(instanceType, '.', family);
    }
    if exists f :: f in GpuFamilies && (instanceType == f || StartsWith(instanceType, f + ".")) {
      var f :| f in GpuFamilies && (instanceType == f || StartsWith(instanceType, f + "."));
      SplitHead(instanceType, '.', f);
    }
  }

  /** `main` installs the GPU driver when asked with `--gpu` or when the instance has a GPU. */
  predicate InstallsGpuDriver(gpuFlag: bool, instanceType: Option<string>) {
    gpuFlag || HasGpu(instanceType)
  }
}
