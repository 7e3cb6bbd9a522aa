/** The Python string and path helpers the build script relies on, applied
    to bare directory-entry names as `os.listdir` returns them (no path
    separator): `str.endswith`, `str.rfind` and `os.path.splitext`. */
module PyPath {

  /** `s.endswith(suffix)`. */
  predicate EndsWith(s: string, suffix: string)
  {
    |suffix| <= |s| && s[|s| - |suffix|..] == suffix
  }

  /** Every character of `s` is a dot (vacuously true of ""). */
  predicate AllDots(s: string)
  {
    forall i :: 0 <= i < |s| ==> s[i] == '.'
  }

  /** `s.rfind(c)`: the index of the last occurrence of `c`, or -1. */
  function LastIndexOf(s: string, c: char): (k: int)
    ensures -1 <= k < |s|
    ensures k >= 0 ==> s[k] == c
    ensures forall j :: k < j < |s| ==> s[j] != c
  {
    if s == [] then -1
    else if s[|s| - 1] == c then |s| - 1
    else LastIndexOf(s[..|s| - 1], c)
  }

  /** `os.path.splitext(p)` on a name without separators: the name is cut
      before its last dot, unless nothing but dots precedes that dot, in
      which case the extension is empty (".png" stays ".png"). */
  function Splitext(p: string): (string, string)
  {
    var k := LastIndexOf(p, '.');
    if k >= 0 && !AllDots(p[..k]) then
      (p[..k], p[k..])
    else
      (p, "")
  }

  /** `os.path.splitext(p)[0]`, the part the script keeps as the game name. */
  function SplitextRoot(p: string): string
  {
    Splitext(p).0
  }

  /** The pair always concatenates back to the name; a non-empty extension
      is a dot followed by dot-free text and comes after a character other
      than a dot; the root is empty only for the empty name. */
  lemma SplitextParts(p: string)
    ensures var (root, ext) := Splitext(p);
      && root + ext == p
      && (ext != "" ==> ext[0] == '.' && '.' !in ext[1..] && !AllDots(root))
      && (root == "" <==> p == "")
  {
  }

  /** Only the final extension is stripped: whenever `ext` is a dot followed
      by dot-free text and `root` holds a character other than a dot,
      splitting `root + ext` gives back exactly `root` and `ext`. So
      "Game.console.exe" splits into "Game.console" and ".exe". */
  lemma SplitextOfJoin(root: string, ext: string)
    requires ext != [] && ext[0] == '.' && '.' !in ext[1..]
    requires !AllDots(root)
    ensures Splitext(root + ext) == (root, ext)
  {
    var p := root + ext;
    var k := LastIndexOf(p, '.');
    assert p[|root|] == '.';
    assert k == |root|;
    assert p[..k] == root;
  }

  /** A name made of dots only before its last dot has no extension:
      splitting it gives the whole name and "". */
  lemma SplitextOfDotted(p: string)
    requires forall k :: 0 <= k < |p| && p[k] == '.' ==> AllDots(p[..k])
    ensures Splitext(p) == (p, "")
  {
  }
}
