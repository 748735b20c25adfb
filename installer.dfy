/**
  `install_yt_dlp` (src/main.rs:92-116): place yt-dlp.exe at
  `<APPDATA>\yt-dlp.exe` unless it is already there, preferring a copy in the
  current directory over a download from a fixed URL, then put the target's
  directory in front of PATH.

  The process's filesystem, environment, current directory and the log of
  network requests are the state of class `Process`; `Install` is the same
  step as a function on a `Host` value, and the lemmas below state what the
  step promises. Network responses and the outcomes of the copy, create and
  write calls are inputs.
*/
module Installer {
  import opened Opt
  import opened Paths
  import opened SearchPath

  type Bytes = seq<bv8>

  /** Files by path. */
  type FileSystem = map<string, Bytes>

  /** Environment variables by name. */
  type Env = map<string, string>

  const PathVar: string := "PATH"
  const AppDataVar: string := "APPDATA"

  /** YT_DLP_DOWNLOAD_URL (src/main.rs:11). */
  const DownloadUrl: string :=
    "https://github.com/yt-dlp/yt-dlp/releases/latest/download/yt-dlp.exe"

  /** What the network does with the one GET request: the request fails, the
      response arrives but its body cannot be read, or the body arrives. */
  datatype Fetch = ConnectFailed | BodyFailed | Fetched(body: Bytes)

  /** Outcome of `io::copy` into the created file: everything is written, or
      the copy fails after `kept` bytes have reached the file. */
  datatype Write = Written | WriteFailed(kept: nat)

  /** Outcomes of the local filesystem calls the step may make. */
  datatype Disk = Disk(copyOk: bool, createOk: bool, write: Write)

  /** Why an install fails; each is an early `?` return in the source. */
  datatype InstallError =
    | CurrentDirError  // env::current_dir()
    | CopyError        // fs::copy
    | NetworkError     // reqwest::blocking::get or response.bytes()
    | CreateError      // fs::File::create
    | WriteError       // io::copy

  datatype Status = Ok | Err(error: InstallError)

  /** The part of the running process the installer reads and changes.
      `cwd` is None when the current directory cannot be read; `fetched` lists
      the URLs requested from the network, oldest first. */
  datatype Host = Host(fs: FileSystem, env: Env, cwd: Option<string>, fetched: seq<string>)

  /** State after a step, and the step's result. */
  datatype Step = Step(host: Host, status: Status)

  function Lookup(env: Env, name: string): Option<string> {
    if name in env then Some(env[name]) else None
  }

  /** Where the executable is installed on this host. */
  function Target(h: Host): string {
    TargetPath(Lookup(h.env, AppDataVar))
  }

  /** The copy of yt-dlp.exe in the current directory. */
  function LocalCopy(cwd: string): string {
    Join(cwd, FileName)
  }

  /** Line 112: PATH gets the target's parent in front. */
  function Register(h: Host, target: string): Host
    requires PathVar in h.env
  {
    h.(env := h.env[PathVar := Prepend(Parent(target), h.env[PathVar])])
  }

  /** Keep the first `k` bytes of `b` (all of them when `k` is larger). */
  function Prefix(b: Bytes, k: nat): Bytes {
    if k < |b| then b[..k] else b
  }

  /** One call of `install_yt_dlp`. PATH must be set: the source unwraps it.
      The current directory is only read, PATH stays set, and a call that
      succeeds leaves a file at the target. */
  function Install(h: Host, net: Fetch, disk: Disk): (s: Step)
    requires PathVar in h.env
    ensures s.host.cwd == h.cwd && PathVar in s.host.env
    ensures s.status == Ok ==> Target(h) in s.host.fs
  {
    match h.cwd
    case None => Step(h, Err(CurrentDirError))
    case Some(dir) =>
      var exe := LocalCopy(dir);
      var target := Target(h);
      if target in h.fs then
        Step(Register(h, target), Ok)
      else if exe in h.fs then
        if disk.copyOk then Step(Register(h.(fs := h.fs[target := h.fs[exe]]), target), Ok)
        else Step(h, Err(CopyError))
      else
        var asked := h.(fetched := h.fetched + [DownloadUrl]);
        if net.ConnectFailed? then Step(asked, Err(NetworkError))
        else if !disk.createOk then Step(asked, Err(CreateError))
        else
          var created := asked.(fs := asked.fs[target := []]);
          match net
          case BodyFailed => Step(created, Err(NetworkError))
          case Fetched(body) =>
            match disk.write
            case Written => Step(Register(created.(fs := created.fs[target := body]), target), Ok)
            case WriteFailed(k) => Step(created.(fs := created.fs[target := Prefix(body, k)]), Err(WriteError))
  }

  /** `n` successive calls with the same inputs. */
  function InstallTimes(h: Host, net: Fetch, disk: Disk, n: nat): (s: Step)
    requires PathVar in h.env
    ensures PathVar in s.host.env
  {
    if n == 0 then Step(h, Ok)
    else
      var first := InstallTimes(h, net, disk, n - 1);
      Install(first.host, net, disk)
  }

  // ---------------------------------------------------------------------
  // What one call promises
  // ---------------------------------------------------------------------

  /** Only the target may change on disk, nothing but PATH changes in the
      environment, the current directory is only read, at most one request
      (for the fixed URL) is made, and PATH stays set. */
  lemma InstallFrame(h: Host, net: Fetch, disk: Disk)
    requires PathVar in h.env
    ensures var s := Install(h, net, disk).host;
      s.cwd == h.cwd &&
      s.fs.Keys <= h.fs.Keys + {Target(h)} &&
      (forall p :: p in h.fs && p != Target(h) ==> p in s.fs && s.fs[p] == h.fs[p]) &&
      s.env.Keys == h.env.Keys &&
      (forall v :: v in h.env && v != PathVar ==> s.env[v] == h.env[v]) &&
      (s.fetched == h.fetched || s.fetched == h.fetched + [DownloadUrl])
  {
  }

  /** Already installed (src/main.rs:97): no copy, no request, no file
      changes, and PATH still gets the directory in front. */
  lemma AlreadyInstalled(h: Host, net: Fetch, disk: Disk)
    requires PathVar in h.env && h.cwd.Some? && Target(h) in h.fs
    ensures var s := Install(h, net, disk);
      s.status == Ok &&
      s.host.fs == h.fs &&
      s.host.fetched == h.fetched &&
      s.host.env == h.env[PathVar := Prepend(Parent(Target(h)), h.env[PathVar])]
  {
  }

  /** A copy in the current directory is used instead of the network
      (src/main.rs:98-101): no request, and on success the target holds exactly
      the local file's bytes. */
  lemma CopiesLocalFile(h: Host, net: Fetch, disk: Disk)
    requires PathVar in h.env && h.cwd.Some?
    requires Target(h) !in h.fs && LocalCopy(h.cwd.value) in h.fs
    ensures var s := Install(h, net, disk);
      s.host.fetched == h.fetched &&
      (disk.copyOk <==> s.status == Ok) &&
      (s.status == Ok ==> s.host.fs == h.fs[Target(h) := h.fs[LocalCopy(h.cwd.value)]]) &&
      (s.status != Ok ==> s.host == h && s.status == Err(CopyError))
  {
  }

  /** With neither the target nor a local copy (src/main.rs:102-107) exactly
      one request for the fixed URL is made, and a successful install leaves
      exactly the downloaded bytes at the target and no other file changed. */
  lemma DownloadsOnce(h: Host, net: Fetch, disk: Disk)
    requires PathVar in h.env && h.cwd.Some?
    requires Target(h) !in h.fs && LocalCopy(h.cwd.value) !in h.fs
    ensures var s := Install(h, net, disk);
      s.host.fetched == h.fetched + [DownloadUrl] &&
      (s.status == Ok <==> net.Fetched? && disk.createOk && disk.write == Written) &&
      (s.status == Ok ==> s.host.fs == h.fs[Target(h) := net.body])
  {
  }

  /** Any failure returns before line 112: PATH and every other variable are
      as they were. */
  lemma FailureKeepsEnv(h: Host, net: Fetch, disk: Disk)
    requires PathVar in h.env
    ensures Install(h, net, disk).status.Err? ==> Install(h, net, disk).host.env == h.env
  {
  }

  /** Which failures leave a file behind. A failed request, a failed create
      or a failed copy leaves no target; once the file is created, a failed
      body read leaves it empty and a failed write leaves a prefix of the
      body at the target. */
  lemma FailureResidue(h: Host, net: Fetch, disk: Disk)
    requires PathVar in h.env && h.cwd.Some? && Target(h) !in h.fs
    ensures var s := Install(h, net, disk);
      (s.status in {Err(CopyError), Err(CreateError)} ==> Target(h) !in s.host.fs) &&
      (s.status == Err(NetworkError) && net.ConnectFailed? ==> Target(h) !in s.host.fs) &&
      (s.status == Err(NetworkError) && net.BodyFailed? ==> s.host.fs == h.fs[Target(h) := []]) &&
      (s.status == Err(WriteError) ==>
         net.Fetched? && Target(h) in s.host.fs && s.host.fs[Target(h)] <= net.body)
  {
  }

  /** Every successful call leaves the target in place and rewrites PATH to
      the target's parent, `;`, and the old PATH; no other variable changes. */
  lemma SuccessPrependsPath(h: Host, net: Fetch, disk: Disk)
    requires PathVar in h.env
    ensures var s := Install(h, net, disk);
      s.status == Ok ==>
        Target(h) in s.host.fs &&
        s.host.env == h.env[PathVar := Prepend(Parent(Target(h)), h.env[PathVar])]
  {
  }

  /** On success PATH's first entry is the target's directory and the old
      entries follow unchanged, provided the install directory has no `;`.
      When it also has no trailing separator, that first entry is the install
      directory itself and yt-dlp.exe looked up in it is the installed file. */
  lemma SuccessPutsTargetFirst(h: Host, net: Fetch, disk: Disk)
    requires PathVar in h.env
    requires ListSep !in InstallDir(Lookup(h.env, AppDataVar))
    ensures var s := Install(h, net, disk);
      s.status == Ok ==>
        PathVar in s.host.env &&
        var segs := Segments(s.host.env[PathVar]);
        segs == [Parent(Target(h))] + Segments(h.env[PathVar]) &&
        (!EndsWithSep(InstallDir(Lookup(h.env, AppDataVar))) ==>
           segs[0] == InstallDir(Lookup(h.env, AppDataVar)) &&
           Join(segs[0], FileName) in s.host.fs)
  {
    var s := Install(h, net, disk);
    if s.status == Ok {
      var dir := InstallDir(Lookup(h.env, AppDataVar));
      var parent := Parent(Target(h));
      assert parent == TrimSep(dir);
      assert ListSep !in parent;
      SuccessPrependsPath(h, net, disk);
      SegmentsOfPrepend(parent, h.env[PathVar]);
      if !EndsWithSep(dir) {
        TargetInItsParent(Lookup(h.env, AppDataVar));
      }
    }
  }

  /** A download cut short after the file was created leaves a file at the
      target; the next call then treats yt-dlp as installed, makes no request
      and keeps the incomplete bytes. */
  lemma InterruptedDownloadLooksInstalled(h: Host, body: Bytes, k: nat, retry: Fetch, disk2: Disk)
    requires PathVar in h.env && h.cwd.Some?
    requires Target(h) !in h.fs && LocalCopy(h.cwd.value) !in h.fs
    requires k < |body|
    ensures var first := Install(h, Fetched(body), Disk(true, true, WriteFailed(k)));
      var second := Install(first.host, retry, disk2);
      first.status == Err(WriteError) &&
      second.status == Ok &&
      second.host.fetched == first.host.fetched &&
      second.host.fs[Target(h)] == body[..k] != body
  {
    var first := Install(h, Fetched(body), Disk(true, true, WriteFailed(k)));
    assert first.host.env == h.env;
    assert Target(first.host) == Target(h);
    assert |body[..k]| != |body|;
  }

  // ---------------------------------------------------------------------
  // Repeated calls
  // ---------------------------------------------------------------------

  /** Placement is idempotent: after one successful call a second call with
      any inputs succeeds, changes no file and makes no request, while PATH
      gains the directory once more. */
  lemma SecondInstallPlacesNothing(h: Host, net1: Fetch, disk1: Disk, net2: Fetch, disk2: Disk)
    requires PathVar in h.env
    requires Install(h, net1, disk1).status == Ok
    ensures var first := Install(h, net1, disk1).host;
      PathVar in first.env &&
      var second := Install(first, net2, disk2);
      second.status == Ok &&
      second.host.fs == first.fs &&
      second.host.fetched == first.fetched &&
      second.host.env[PathVar] == Prepend(Parent(Target(h)), first.env[PathVar])
  {
    var first := Install(h, net1, disk1).host;
    InstallFrame(h, net1, disk1);
    assert Lookup(first.env, AppDataVar) == Lookup(h.env, AppDataVar);
  }

  /** The step on an installed host, as one equation. */
  lemma InstalledStep(h: Host, net: Fetch, disk: Disk)
    requires PathVar in h.env && h.cwd.Some? && Target(h) in h.fs
    ensures Install(h, net, disk) == Step(Register(h, Target(h)), Ok)
  {
  }

  /** The host after `n` prepends of `dir` to PATH and nothing else. */
  function Prepended(h: Host, dir: string, n: nat): Host
    requires PathVar in h.env
  {
    h.(env := h.env[PathVar := PrependTimes(dir, h.env[PathVar], n)])
  }

  /** From an installed state, `n` more calls succeed, change no file, make no
      request and leave everything but PATH alone; PATH is the old value with
      the directory put in front `n` times. */
  lemma {:induction false} RepeatedInstalls(h: Host, net: Fetch, disk: Disk, n: nat)
    requires PathVar in h.env && h.cwd.Some? && Target(h) in h.fs
    ensures InstallTimes(h, net, disk, n) == Step(Prepended(h, Parent(Target(h)), n), Ok)
  {
    if n > 0 {
      RepeatedInstalls(h, net, disk, n - 1);
      var dir := Parent(Target(h));
      var prev := Prepended(h, dir, n - 1);
      assert AppDataVar != PathVar by { assert |AppDataVar| != |PathVar|; }
      assert Lookup(prev.env, AppDataVar) == Lookup(h.env, AppDataVar);
      assert Target(prev) == Target(h);
      InstalledStep(prev, net, disk);
      assert Register(prev, Target(h)) == Prepended(h, dir, n);
    }
  }

  // ---------------------------------------------------------------------
  // The process
  // ---------------------------------------------------------------------

  /** The running program's view of its host, updated in place. */
  class Process {
    var fs: FileSystem
    var env: Env
    var cwd: Option<string>
    var fetched: seq<string>

    function Snapshot(): Host
      reads this
    {
      Host(fs, env, cwd, fetched)
    }

    constructor (fs0: FileSystem, env0: Env, cwd0: Option<string>)
      ensures Snapshot() == Host(fs0, env0, cwd0, [])
    {
      fs, env, cwd, fetched := fs0, env0, cwd0, [];
    }

    /** `install_yt_dlp`, step by step as the source performs it. */
    method InstallYtDlp(net: Fetch, disk: Disk) returns (r: Status)
      requires PathVar in env
      modifies this
      ensures Step(Snapshot(), r) == Install(old(Snapshot()), net, disk)
      ensures PathVar in env
    {
      if cwd.None? {
        return Err(CurrentDirError);
      }
      var exe := LocalCopy(cwd.value);
      var target := TargetPath(Lookup(env, AppDataVar));
      if target !in fs {
        if exe in fs {
          if !disk.copyOk {
            return Err(CopyError);
          }
          fs := fs[target := fs[exe]];
        } else {
          fetched := fetched + [DownloadUrl];
          if net.ConnectFailed? {
            return Err(NetworkError);
          }
          if !disk.createOk {
            return Err(CreateError);
          }
          fs := fs[target := []];
          if net.BodyFailed? {
            return Err(NetworkError);
          }
          if disk.write.WriteFailed? {
            fs := fs[target := Prefix(net.body, disk.write.kept)];
            return Err(WriteError);
          }
          fs := fs[target := net.body];
        }
      }
      env := env[PathVar := Prepend(Parent(target), env[PathVar])];
      r := Ok;
    }

    /** The start of the main loop (src/main.rs:17-19): install only when the
        probe `yt-dlp --version` could not be started. */
    method EnsureYtDlp(probeOk: bool, net: Fetch, disk: Disk) returns (r: Status)
      requires PathVar in env
      modifies this
      ensures probeOk ==> r == Ok && Snapshot() == old(Snapshot())
      ensures !probeOk ==> Step(Snapshot(), r) == Install(old(Snapshot()), net, disk)
      ensures PathVar in env
    {
      r := Ok;
      if !probeOk {
        r := InstallYtDlp(net, disk);
      }
    }
  }

  /** Two installs in a row on one process: the second one places nothing and
      makes no request. */
  method InstallTwice(p: Process, net1: Fetch, disk1: Disk, net2: Fetch, disk2: Disk)
      returns (r1: Status, r2: Status)
    requires PathVar in p.env
    modifies p
    ensures r1 == Ok ==> r2 == Ok
    ensures r1 == Ok ==> p.fs == Install(old(p.Snapshot()), net1, disk1).host.fs
    ensures r1 == Ok ==> p.fetched == Install(old(p.Snapshot()), net1, disk1).host.fetched
    ensures var first := Install(old(p.Snapshot()), net1, disk1);
      r1 == first.status && Step(p.Snapshot(), r2) == Install(first.host, net2, disk2)
    ensures PathVar in p.env && p.cwd == old(p.cwd)
    ensures r1 == Ok ==>
      (var dir := Parent(Target(old(p.Snapshot())));
       p.env[PathVar] == Prepend(dir, Prepend(dir, old(p.env[PathVar]))))
  {
    ghost var h := p.Snapshot();
    r1 := p.InstallYtDlp(net1, disk1);
    r2 := p.InstallYtDlp(net2, disk2);
    if r1 == Ok {
      SecondInstallPlacesNothing(h, net1, disk1, net2, disk2);
      SuccessPrependsPath(h, net1, disk1);
      InstallFrame(h, net1, disk1);
    }
  }
}
