/**
 * System.IO.Path on a Unix host: '/' is the only directory separator and a
 * path is rooted when it starts with '/'.
 */
module Paths {
  import opened Text

  const Separator: char := '/'

  /** The index of the last occurrence of c in s, or -1 (string.LastIndexOf(char)). */
  function LastIndexOf(s: string, c: char): (r: int)
    ensures -1 <= r < |s|
    ensures r >= 0 ==> s[r] == c
    ensures forall k | r < k < |s| :: s[k] != c
  {
    if s == [] then -1
    else if s[|s| - 1] == c then |s| - 1
    else LastIndexOf(s[..|s| - 1], c)
  }

  /** Path.GetFileName: the part after the last separator. */
  function GetFileName(path: string): (r: string)
    ensures Separator !in r
    ensures EndsWith(path, r)
    ensures |r| < |path| ==> path[|path| - |r| - 1] == Separator
  {
    path[LastIndexOf(path, Separator) + 1..]
  }

  /**
   * Path.GetExtension: from the last '.' of the file name to the end, or the
   * empty string when the file name has no '.' or ends with it.
   */
  function GetExtension(path: string): string {
    var name := GetFileName(path);
    var dot := LastIndexOf(name, '.');
    if dot < 0 || dot == |name| - 1 then "" else name[dot..]
  }

  /**
   * The extension is a suffix of the path: a '.' followed by at least one
   * character, none of them a separator or another '.'; it is empty only
   * when the file name has no '.' or ends with one.
   */
  lemma ExtensionIsLastDotSuffix(path: string)
    ensures var r := GetExtension(path);
      && EndsWith(path, r)
      && (r != [] ==> |r| >= 2 && r[0] == '.' && Separator !in r && '.' !in r[1..])
      && (r == [] ==> var name := GetFileName(path); '.' !in name || name[|name| - 1] == '.')
  {
    var name := GetFileName(path);
    var dot := LastIndexOf(name, '.');
    if dot >= 0 && dot != |name| - 1 {
      var r := name[dot..];
      EndsWithSlice(path, name, dot);
      assert r[1..] == name[dot + 1..];
      assert forall k | 0 <= k < |r| :: r[k] == name[dot + k];
    }
  }

  /** A path that ends with a name ends with every tail of that name. */
  lemma EndsWithSlice(path: string, name: string, k: nat)
    requires EndsWith(path, name) && k <= |name|
    ensures EndsWith(path, name[k..])
  {
    assert path[|path| - |name[k..]|..] == path[|path| - |name|..][k..];
  }

  /** Path.GetFileNameWithoutExtension: the file name up to (not including) its last '.'. */
  function GetFileNameWithoutExtension(path: string): (r: string)
    ensures Separator !in r
    ensures r <= GetFileName(path)
    ensures var rest := GetFileName(path)[|r|..]; rest == [] || (rest[0] == '.' && '.' !in rest[1..])
    ensures GetFileName(path)[|r|..] == [] <==> '.' !in GetFileName(path)
  {
    var name := GetFileName(path);
    var dot := LastIndexOf(name, '.');
    if dot < 0 then name else name[..dot]
  }

  /**
   * Unless the file name ends with '.', it is the name without extension
   * followed by the extension.
   */
  lemma FileNameSplits(path: string)
    requires var name := GetFileName(path); name == [] || name[|name| - 1] != '.'
    ensures GetFileName(path) == GetFileNameWithoutExtension(path) + GetExtension(path)
  {
  }

  /**
   * Path.Combine(a, b) for two parts: b alone when it is rooted or a is
   * empty, otherwise a and b joined by exactly one separator.
   */
  function Combine(a: string, b: string): (r: string)
    ensures b != [] && b[0] == Separator ==> r == b
    ensures a != [] && (b == [] || b[0] != Separator) ==> a <= r && EndsWith(r, b)
    ensures a != [] && b != [] && b[0] != Separator ==> |r| > |b| && r[|r| - |b| - 1] == Separator
  {
    if b != [] && b[0] == Separator then b
    else if a == [] then b
    else if b == [] then a
    else if a[|a| - 1] == Separator then a + b
    else a + [Separator] + b
  }
}
