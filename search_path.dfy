/**
  The PATH variable as the installer rewrites it: `format!("{};{}", dir, PATH)`
  (src/main.rs:112), and the entries of a PATH value, split at every `;`.
*/
module SearchPath {
  /** The separator between PATH entries on Windows. */
  const ListSep: char := ';'

  /** The new PATH value once `dir` is put in front of `path`. */
  function Prepend(dir: string, path: string): string {
    dir + [ListSep] + path
  }

  /** `dir` put in front of `path` `n` times over. */
  function PrependTimes(dir: string, path: string, n: nat): string {
    if n == 0 then path else Prepend(dir, PrependTimes(dir, path, n - 1))
  }

  /** The entries of a PATH value, in search order: the pieces between `;`
      separators. There is always at least one (possibly empty) entry and no
      entry contains the separator. */
  function Segments(s: string): (r: seq<string>)
    ensures |r| >= 1
    ensures forall i :: 0 <= i < |r| ==> ListSep !in r[i]
    decreases |s|
  {
    if s == [] then [[]]
    else
      var rest := Segments(s[1..]);
      if s[0] == ListSep then [[]] + rest
      else [[s[0]] + rest[0]] + rest[1..]
  }

  /** Joins entries back with `;` separators. */
  function Unsplit(segs: seq<string>): string
    requires |segs| >= 1
    decreases |segs|
  {
    if |segs| == 1 then segs[0] else segs[0] + [ListSep] + Unsplit(segs[1..])
  }

  /** Splitting loses nothing: joining the entries gives the value back. */
  lemma {:induction false} UnsplitSegments(s: string)
    ensures Unsplit(Segments(s)) == s
    decreases |s|
  {
    if s != [] {
      var rest := Segments(s[1..]);
      UnsplitSegments(s[1..]);
      if s[0] == ListSep {
        assert Segments(s) == [[]] + rest;
        assert Segments(s)[1..] == rest;
      } else {
        var segs := Segments(s);
        assert segs == [[s[0]] + rest[0]] + rest[1..];
        if |rest| == 1 {
          assert s == [s[0]] + s[1..];
        } else {
          assert segs[1..] == rest[1..];
          assert Unsplit(rest) == rest[0] + [ListSep] + Unsplit(rest[1..]);
          assert s == [s[0]] + s[1..];
        }
      }
    }
  }

  /** Putting a directory without `;` in front of PATH makes it the first
      entry and keeps every old entry, in order, behind it. */
  lemma {:induction false} SegmentsOfPrepend(dir: string, path: string)
    requires ListSep !in dir
    ensures Segments(Prepend(dir, path)) == [dir] + Segments(path)
    decreases |dir|
  {
    var s := Prepend(dir, path);
    if dir == [] {
      assert s[1..] == path;
    } else {
      assert s[1..] == Prepend(dir[1..], path);
      SegmentsOfPrepend(dir[1..], path);
      assert dir == [dir[0]] + dir[1..];
    }
  }

  /** After `n` prepends of the same directory, PATH starts with `n` copies of
      it followed by the old entries. */
  lemma {:induction false} SegmentsOfPrependTimes(dir: string, path: string, n: nat)
    requires ListSep !in dir
    ensures Segments(PrependTimes(dir, path, n)) == seq(n, _ => dir) + Segments(path)
  {
    if n > 0 {
      SegmentsOfPrependTimes(dir, path, n - 1);
      SegmentsOfPrepend(dir, PrependTimes(dir, path, n - 1));
      assert seq(n, _ => dir) == [dir] + seq(n - 1, _ => dir);
    }
  }

  /** The old PATH survives every prepend as a suffix of the new value. */
  lemma {:induction false} OldPathIsSuffix(dir: string, path: string, n: nat)
    ensures |path| <= |PrependTimes(dir, path, n)|
    ensures PrependTimes(dir, path, n)[|PrependTimes(dir, path, n)| - |path|..] == path
  {
    if n > 0 {
      OldPathIsSuffix(dir, path, n - 1);
      var inner := PrependTimes(dir, path, n - 1);
      var s := Prepend(dir, inner);
      assert s[|s| - |inner|..] == inner;
      assert s[|s| - |path|..] == inner[|inner| - |path|..];
    }
  }
}
