/**
  Windows path handling used by the installer: `Path::join` of a directory
  with a plain file name, `Path::parent` and the file name of a path, and the
  derivation of the installation target from the APPDATA variable
  (src/main.rs:93-95).

  Paths are strings. Both `\` and `/` separate components, as they do on
  Windows; `Join` inserts `\`.
*/
module Paths {
  import opened Opt

  /** The executable the program installs and looks for. */
  const FileName: string := "yt-dlp.exe"

  /** The directory used when APPDATA is unset or not valid Unicode. */
  const FallbackDir: string := "C:\\yt-dlp"

  /** The separator `Path::join` inserts on Windows. */
  const Separator: char := '\\'

  predicate IsSep(c: char) {
    c == '\\' || c == '/'
  }

  predicate HasNoSep(s: string) {
    forall i :: 0 <= i < |s| ==> !IsSep(s[i])
  }

  predicate EndsWithSep(s: string) {
    |s| > 0 && IsSep(s[|s| - 1])
  }

  /** `Path::new(dir).join(name)` for a relative `name` without a drive prefix:
      a separator is inserted unless `dir` is empty or already ends in one. */
  function Join(dir: string, name: string): string {
    if dir == [] || EndsWithSep(dir) then dir + name else dir + [Separator] + name
  }

  /** `Path::parent`: everything before the last separator, or the empty path
      when there is no separator. */
  function Parent(p: string): (r: string)
    ensures r <= p
    ensures p != [] ==> |r| < |p|
    decreases |p|
  {
    if p == [] then []
    else if IsSep(p[|p| - 1]) then p[..|p| - 1]
    else
      var r := Parent(p[..|p| - 1]);
      assert p[..|p| - 1] <= p;
      r
  }

  /** `Path::file_name`: everything after the last separator. */
  function BaseName(p: string): (r: string)
    ensures HasNoSep(r)
    ensures |r| <= |p|
    decreases |p|
  {
    if p == [] then []
    else if IsSep(p[|p| - 1]) then []
    else BaseName(p[..|p| - 1]) + [p[|p| - 1]]
  }

  /** The directory a path names once a trailing separator is dropped. */
  function TrimSep(dir: string): string {
    if EndsWithSep(dir) then dir[..|dir| - 1] else dir
  }

  /** A path with a separator splits at its last one into parent, separator
      and file name. */
  lemma {:induction false} SplitAtLastSep(p: string)
    requires !HasNoSep(p)
    ensures |Parent(p)| < |p| && IsSep(p[|Parent(p)|])
    ensures p == Parent(p) + [p[|Parent(p)|]] + BaseName(p)
    decreases |p|
  {
    var k := |p| - 1;
    if IsSep(p[k]) {
      assert p == p[..k] + [p[k]] + [];
    } else {
      var q := p[..k];
      var c := p[k];
      var i :| 0 <= i < |p| && IsSep(p[i]);
      assert i < k && q[i] == p[i];
      SplitAtLastSep(q);
      var j := |Parent(q)|;
      assert p == q + [c];
      assert p[j] == q[j];
      assert p == Parent(q) + [q[j]] + (BaseName(q) + [c]);
    }
  }

  /** A path made of `pre`, one separator and a separator-free name has parent
      `pre` and file name `name`. */
  lemma {:induction false} SplitAfterSep(pre: string, c: char, name: string)
    requires IsSep(c) && HasNoSep(name)
    ensures Parent(pre + [c] + name) == pre
    ensures BaseName(pre + [c] + name) == name
    decreases |name|
  {
    var p := pre + [c] + name;
    if name != [] {
      var q := name[..|name| - 1];
      assert p[..|p| - 1] == pre + [c] + q;
      SplitAfterSep(pre, c, q);
      assert name == q + [name[|name| - 1]];
    }
  }

  /** A path without separators has an empty parent and is its own file name. */
  lemma {:induction false} NoSepSplit(name: string)
    requires HasNoSep(name)
    ensures Parent(name) == [] && BaseName(name) == name
    decreases |name|
  {
    if name != [] {
      var q := name[..|name| - 1];
      NoSepSplit(q);
      assert name == q + [name[|name| - 1]];
    }
  }

  /** Joining then splitting gives back the name, and the directory without a
      trailing separator. */
  lemma JoinThenSplit(dir: string, name: string)
    requires HasNoSep(name)
    ensures BaseName(Join(dir, name)) == name
    ensures Parent(Join(dir, name)) == TrimSep(dir)
  {
    if dir == [] {
      assert Join(dir, name) == name;
      NoSepSplit(name);
    } else if EndsWithSep(dir) {
      var pre := dir[..|dir| - 1];
      assert Join(dir, name) == pre + [dir[|dir| - 1]] + name;
      SplitAfterSep(pre, dir[|dir| - 1], name);
    } else {
      SplitAfterSep(dir, Separator, name);
    }
  }

  /** The directory holding the installation: APPDATA, or the fallback when
      the variable could not be read (`unwrap_or_else`, src/main.rs:94). */
  function InstallDir(appData: Option<string>): (d: string)
    ensures appData.None? ==> d == FallbackDir
    ensures appData.Some? ==> d == appData.value
  {
    appData.GetOr(FallbackDir)
  }

  /** The installation target `<APPDATA>\yt-dlp.exe` (src/main.rs:94-95): its
      file name is always yt-dlp.exe and its parent is the install directory. */
  function TargetPath(appData: Option<string>): (p: string)
    ensures BaseName(p) == FileName
    ensures Parent(p) == TrimSep(InstallDir(appData))
    ensures appData.None? ==> p == "C:\\yt-dlp\\yt-dlp.exe"
  {
    var dir := InstallDir(appData);
    assert HasNoSep(FileName);
    JoinThenSplit(dir, FileName);
    Join(dir, FileName)
  }

  /** Joining the target's parent with the file name gives the target back, so
      a lookup of yt-dlp.exe in that directory finds the installed file. */
  lemma TargetInItsParent(appData: Option<string>)
    requires !EndsWithSep(InstallDir(appData))
    ensures Join(Parent(TargetPath(appData)), FileName) == TargetPath(appData)
  {
  }
}
