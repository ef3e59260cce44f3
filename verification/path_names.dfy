/** The string and path-name primitives of Python that the converter relies on:
    `str.endswith`, `str.rfind('.')` and the root half of `os.path.splitext`
    applied to a bare directory entry (a name that holds no path separator). */
module PathNames {

  /** `s.endswith(suffix)`: a case-sensitive suffix test. */
  predicate EndsWith(s: string, suffix: string) {
    |suffix| <= |s| && s[|s| - |suffix|..] == suffix
  }

  /** Every character of `s` is a dot (vacuously true of ""). */
  predicate AllDots(s: string) {
    forall k :: 0 <= k < |s| ==> s[k] == '.'
  }

  /** An extension as `splitext` cuts it off: a dot followed by no further dot. */
  predicate IsExtension(ext: string) {
    |ext| >= 1 && ext[0] == '.' && forall k :: 1 <= k < |ext| ==> ext[k] != '.'
  }

  /** `s.rfind('.')`: the index of the last dot of `s`, or -1 when there is none. */
  function LastDot(s: string): (r: int)
    ensures -1 <= r < |s|
    ensures r == -1 ==> forall k :: 0 <= k < |s| ==> s[k] != '.'
    ensures r >= 0 ==> s[r] == '.' && forall k :: r < k < |s| ==> s[k] != '.'
  {
    if s == [] then -1
    else if s[|s| - 1] == '.' then |s| - 1
    else LastDot(s[..|s| - 1])
  }

  /** `os.path.splitext(name)[0]` for a name without separators: the last
      extension is cut off unless everything before the last dot is a dot
      (a leading-dot name such as ".xlsx" or "..xls" is kept whole). */
  function SplitExtRoot(name: string): (root: string)
    ensures |root| <= |name| && name[..|root|] == root
    ensures root != name ==> IsExtension(name[|root|..]) && !AllDots(root)
  {
    var d := LastDot(name);
    if d >= 0 && !AllDots(name[..d]) then name[..d] else name
  }

  /** The last dot of `stem + ext` is the one that starts `ext`. */
  lemma LastDotOfExtension(stem: string, ext: string)
    requires IsExtension(ext)
    ensures LastDot(stem + ext) == |stem|
  {
    var s := stem + ext;
    assert s[|stem|] == '.';
    forall k | |stem| < k < |s| ensures s[k] != '.' {
      assert s[k] == ext[k - |stem|];
    }
  }

  /** `splitext` cuts exactly one extension off a name, and cuts nothing
      when the rest of the name is only dots. */
  lemma SplitExtRootOf(stem: string, ext: string)
    requires IsExtension(ext)
    ensures SplitExtRoot(stem + ext) == if AllDots(stem) then stem + ext else stem
  {
    LastDotOfExtension(stem, ext);
    assert (stem + ext)[..|stem|] == stem;
  }

  /** A name with no dot at all is its own root. */
  lemma SplitExtRootNoDot(name: string)
    requires forall k :: 0 <= k < |name| ==> name[k] != '.'
    ensures SplitExtRoot(name) == name
  {
  }
}
