/** The System.IO.Path operations the views use, with Windows conventions:
    both '\' and '/' separate directories, and a drive prefix "C:" is a root
    that no file name extends into. */
module Paths {

  const DirectorySeparatorChar: char := '\\'
  const AltDirectorySeparatorChar: char := '/'

  predicate IsSeparator(c: char)
  {
    c == DirectorySeparatorChar || c == AltDirectorySeparatorChar
  }

  predicate IsDriveLetter(c: char)
  {
    'A' <= c <= 'Z' || 'a' <= c <= 'z'
  }

  /** The length of the path's root: the drive "C:" with the separator after it,
      a single leading separator, or nothing. */
  function RootLength(path: string): (n: nat)
    ensures n <= |path|
    ensures forall i :: 0 <= i < n ==> path[i] == ':' || IsDriveLetter(path[i]) || IsSeparator(path[i])
  {
    if |path| >= 2 && IsDriveLetter(path[0]) && path[1] == ':' then
      (if |path| >= 3 && IsSeparator(path[2]) then 3 else 2)
    else if |path| >= 1 && IsSeparator(path[0]) then 1
    else 0
  }

  /** Where the last segment of path[..i] starts: just after the last separator,
      but never inside the root. */
  function NameStart(path: string, i: nat): (k: nat)
    requires RootLength(path) <= i <= |path|
    ensures RootLength(path) <= k <= i
    ensures forall j :: k <= j < i ==> !IsSeparator(path[j])
    ensures k == RootLength(path) || IsSeparator(path[k - 1])
  {
    if i == RootLength(path) || IsSeparator(path[i - 1]) then i else NameStart(path, i - 1)
  }

  /** Path.GetFileName: the text after the last separator (or after the root). */
  function FileName(path: string): (r: string)
    ensures |r| <= |path| && r == path[|path| - |r|..]
    ensures forall j :: 0 <= j < |r| ==> !IsSeparator(r[j])
  {
    path[NameStart(path, |path|)..]
  }

  /** The file name is the longest separator-free tail outside the root: the
      character before it is a separator, or it starts where the root ends. */
  lemma {:induction false} FileNameIsLastSegment(path: string)
    ensures var r := FileName(path);
      |r| == |path| - RootLength(path) || IsSeparator(path[|path| - |r| - 1])
    ensures path != [] && IsSeparator(path[|path| - 1]) ==> FileName(path) == ""
  {
    var k := NameStart(path, |path|);
    assert FileName(path) == path[k..];
    assert |path| - |FileName(path)| == k;
  }

  /** A path with no separator after its root is named by everything after the
      root. */
  lemma {:induction false} FileNameAfterRoot(path: string, i: nat)
    requires RootLength(path) <= i <= |path|
    requires forall j :: RootLength(path) <= j < i ==> !IsSeparator(path[j])
    ensures NameStart(path, i) == RootLength(path)
  {
    if i > RootLength(path) {
      FileNameAfterRoot(path, i - 1);
    }
  }

  /** String.TrimEnd(c): drops every trailing c. */
  function TrimEndChar(s: string, c: char): (r: string)
    ensures |r| <= |s| && r == s[..|r|]
    ensures forall i :: |r| <= i < |s| ==> s[i] == c
    ensures r != [] ==> r[|r| - 1] != c
  {
    if |s| > 0 && s[|s| - 1] == c then TrimEndChar(s[..|s| - 1], c) else s
  }

  /** The index of the last c in s, or -1. */
  function LastIndexOf(s: string, c: char): (i: int)
    ensures -1 <= i < |s|
    ensures i >= 0 ==> s[i] == c
    ensures forall j :: i < j < |s| ==> s[j] != c
  {
    if s == [] then -1
    else if s[|s| - 1] == c then |s| - 1
    else LastIndexOf(s[..|s| - 1], c)
  }

  /** Path.GetFileNameWithoutExtension: the file name up to its last '.'. */
  function FileNameWithoutExtension(path: string): (r: string)
    ensures var name := FileName(path);
      |r| <= |name| && r == name[..|r|] &&
      (r == name <==> '.' !in name) &&
      (r != name ==> name[|r|] == '.' && '.' !in name[|r| + 1..])
  {
    var name := FileName(path);
    var dot := LastIndexOf(name, '.');
    if dot < 0 then name else name[..dot]
  }
}
