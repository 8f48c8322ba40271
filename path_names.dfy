/** The string and path helpers the monitor and the processor rely on: `str.rfind`, pathlib's
    `name`, `suffix` and `stem`, `os.path.join`, `str.lower` on file suffixes, and the glob pattern
    `*.[mM][pP]4`. Paths are POSIX strings. */
module PathNames {

  /** `s.rfind(c)`: the index of the last `c` in `s`, or -1 when there is none. */
  function LastIndexOf(s: string, c: char): (i: int)
    ensures -1 <= i < |s|
    ensures i >= 0 ==> s[i] == c
    ensures forall k :: i < k < |s| ==> s[k] != c
  {
    if |s| == 0 then -1
    else if s[|s| - 1] == c then |s| - 1
    else LastIndexOf(s[..|s| - 1], c)
  }

  /** The last occurrence is the only index holding `c` with no `c` after it. */
  lemma LastIndexOfUnique(s: string, c: char, i: int)
    requires -1 <= i < |s|
    requires i >= 0 ==> s[i] == c
    requires forall k :: i < k < |s| ==> s[k] != c
    ensures LastIndexOf(s, c) == i
  {
  }

  /** `PurePath(path).name`: the final component, everything after the last '/'. */
  function Name(path: string): (n: string)
    ensures forall k :: 0 <= k < |n| ==> n[k] != '/'
    ensures |n| <= |path| && path[|path| - |n|..] == n
  {
    path[LastIndexOf(path, '/') + 1..]
  }

  /** `PurePath(name).suffix`: from the last '.' on, but only when that dot is neither the first
      character (a hidden file) nor the last one; otherwise the empty string. */
  function Suffix(name: string): (s: string)
    ensures s == "" || (|s| >= 2 && s[0] == '.' && '.' !in s[1..])
    ensures |s| < |name| || s == ""
    ensures name[|name| - |s|..] == s
  {
    var i := LastIndexOf(name, '.');
    if 0 < i < |name| - 1 then
      var s := name[i..];
      assert forall j :: 1 <= j < |s| ==> s[j] == name[i + j];
      s
    else ""
  }

  /** `PurePath(name).stem`: the name without its suffix. */
  function Stem(name: string): (t: string)
    ensures t + Suffix(name) == name
    ensures name != "" ==> t != ""
  {
    var i := LastIndexOf(name, '.');
    if 0 < i < |name| - 1 then name[..i] else name
  }

  /** A non-empty stem followed by a dotted extension splits back into the two; the stem may itself
      hold dots, since only the last one counts. */
  lemma {:induction false} SplitDotted(stem: string, ext: string)
    requires stem != ""
    requires |ext| >= 2 && ext[0] == '.' && '.' !in ext[1..]
    ensures Suffix(stem + ext) == ext
    ensures Stem(stem + ext) == stem
  {
    var name := stem + ext;
    forall k | |stem| < k < |name| ensures name[k] != '.' {
      assert name[k] == ext[1..][k - |stem| - 1];
    }
    LastIndexOfUnique(name, '.', |stem|);
  }

  /** ASCII `str.lower` on one character. */
  function LowerChar(c: char): char {
    if 'A' <= c <= 'Z' then (c as int - 'A' as int + 'a' as int) as char else c
  }

  /** `s.lower()` for the characters that can occur in the suffixes the monitor compares against. */
  function Lower(s: string): (r: string)
    ensures |r| == |s|
    ensures forall k :: 0 <= k < |s| ==> r[k] == LowerChar(s[k])
  {
    seq(|s|, k requires 0 <= k < |s| => LowerChar(s[k]))
  }

  /** `os.path.join(dir, name)`: an absolute `name` replaces `dir`; otherwise a '/' is inserted
      unless `dir` is empty or already ends in one. */
  function Join(dir: string, name: string): string {
    if |name| > 0 && name[0] == '/' then name
    else if dir == "" || dir[|dir| - 1] == '/' then dir + name
    else dir + "/" + name
  }

  /** Joining a plain file name onto a directory gives a path whose final component is that name. */
  lemma NameOfJoin(dir: string, name: string)
    requires '/' !in name
    ensures Name(Join(dir, name)) == name
  {
    var p := Join(dir, name);
    var prefix := if dir == "" || dir[|dir| - 1] == '/' then dir else dir + "/";
    assert p == prefix + name;
    forall k | |prefix| <= k < |p| ensures p[k] != '/' {
      assert p[k] == name[k - |prefix|];
    }
    if prefix == "" {
      LastIndexOfUnique(p, '/', -1);
    } else {
      LastIndexOfUnique(p, '/', |prefix| - 1);
    }
  }

  /** Joining onto the same directory keeps relative names apart. */
  lemma JoinInjective(dir: string, a: string, b: string)
    requires a != "" && a[0] != '/' && b != "" && b[0] != '/'
    ensures Join(dir, a) == Join(dir, b) <==> a == b
  {
    var prefix := if dir == "" || dir[|dir| - 1] == '/' then dir else dir + "/";
    assert Join(dir, a) == prefix + a && Join(dir, b) == prefix + b;
    if prefix + a == prefix + b {
      assert a == (prefix + a)[|prefix|..];
      assert b == (prefix + b)[|prefix|..];
    }
  }

  /** The pathlib glob `*.[mM][pP]4`, which is case-sensitive on POSIX except for the bracketed
      classes, and whose `*` also matches the empty string and a leading dot. */
  predicate MatchesMp4Glob(name: string) {
    |name| >= 4 && name[|name| - 4] == '.' && name[|name| - 3] in "mM"
    && name[|name| - 2] in "pP" && name[|name| - 1] == '4'
  }

  /** The glob and the lower-cased-suffix test agree, except on the hidden file ".mp4" itself,
      which the glob matches but which has no suffix. */
  lemma {:induction false} GlobMatchesMp4Suffix(name: string)
    ensures Lower(Suffix(name)) == ".mp4" <==> MatchesMp4Glob(name) && |name| > 4
  {
    var n := |name|;
    if MatchesMp4Glob(name) && n > 4 {
      forall k | n - 4 < k < n ensures name[k] != '.' { }
      LastIndexOfUnique(name, '.', n - 4);
      assert Suffix(name) == name[n - 4..];
      assert Lower(Suffix(name)) == ".mp4";
    }
    if Lower(Suffix(name)) == ".mp4" {
      var s := Suffix(name);
      assert |s| == 4;
      assert name[n - 4..] == s;
      assert name[n - 4] == s[0] && name[n - 3] == s[1] && name[n - 2] == s[2] && name[n - 1] == s[3];
      assert LowerChar(s[1]) == 'm' && LowerChar(s[2]) == 'p' && LowerChar(s[3]) == '4';
    }
  }
}
