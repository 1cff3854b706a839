/**
 * The string operations the server and the client use to take a file name apart:
 * `lastIndexOf('.')`, the last element of `split('.')`, `substring(0, lastIndexOf('.'))`
 * and `replace(/\.[^/.]+$/, "")`.
 */
module FileNames {

  /** `s.lastIndexOf(c)`: the index of the last `c` in `s`, or -1 when there is none. */
  function LastIndexOf(s: string, c: char): (i: int)
    ensures -1 <= i < |s|
    ensures i >= 0 ==> s[i] == c
    ensures forall k :: i < k < |s| ==> s[k] != c
  {
    LastIndexBefore(s, c, |s|)
  }

  /** The index of the last `c` among the first `n` characters of `s`, or -1. */
  function LastIndexBefore(s: string, c: char, n: nat): (i: int)
    requires n <= |s|
    ensures -1 <= i < n
    ensures i >= 0 ==> s[i] == c
    ensures forall k :: i < k < n ==> s[k] != c
  {
    if n == 0 then -1
    else if s[n - 1] == c then n - 1
    else LastIndexBefore(s, c, n - 1)
  }

  /**
   * `s.substring(0, s.lastIndexOf('.'))`: the text before the last '.'; JavaScript's
   * `substring` clamps the -1 of a name without '.' to 0, which gives "".
   */
  function BeforeLastDot(s: string): (p: string)
    ensures '.' !in s ==> p == ""
    ensures '.' in s ==> |p| < |s| && p == s[..|p|] && s[|p|] == '.' && '.' !in s[|p| + 1..]
  {
    var i := LastIndexOf(s, '.');
    if i < 0 then "" else s[..i]
  }

  /** `s.split('.').pop()`: the text after the last '.', or the whole of `s` when it has none. */
  function LastSegment(s: string): (t: string)
    ensures |t| <= |s|
    ensures '.' !in t
    ensures '.' !in s ==> t == s
  {
    s[LastIndexOf(s, '.') + 1..]
  }

  /** Splitting at the last '.' and joining again gives the name back. */
  lemma SplitAtLastDot(s: string)
    requires '.' in s
    ensures BeforeLastDot(s) + "." + LastSegment(s) == s
  {
    var i := LastIndexOf(s, '.');
    assert s[..i] + "." + s[i + 1..] == s[..i] + s[i..];
    assert s[..i] + s[i..] == s;
  }

  /** The regular expression /\.[^/.]+$/ matches `s` at index `i`. */
  predicate ExtensionAt(s: string, i: int)
  {
    0 <= i && i + 1 < |s| && s[i] == '.' && forall k :: i < k < |s| ==> s[k] != '.' && s[k] != '/'
  }

  /** `s.replace(/\.[^/.]+$/, "")`: drops a final extension made of neither '.' nor '/'. */
  function StripExtension(s: string): (r: string)
    ensures |r| <= |s| && r == s[..|r|]
  {
    var i := LastIndexOf(s, '.');
    if ExtensionAt(s, i) then s[..i] else s
  }

  /** The regular expression matches at most at one index. */
  lemma ExtensionAtUnique(s: string, i: int, j: int)
    requires ExtensionAt(s, i) && ExtensionAt(s, j)
    ensures i == j
  {
  }

  /**
   * StripExtension removes exactly the regular expression's match when there is one,
   * and leaves `s` alone when there is none.
   */
  lemma StripExtensionMatchesRegex(s: string)
    ensures forall i :: ExtensionAt(s, i) ==> StripExtension(s) == s[..i]
    ensures (forall i :: !ExtensionAt(s, i)) ==> StripExtension(s) == s
  {
    var d := LastIndexOf(s, '.');
    forall i | ExtensionAt(s, i)
      ensures StripExtension(s) == s[..i]
    {
      assert s[i] == '.';
      assert i <= d;
      assert s[d] == '.';
      assert d <= i;
    }
  }

  /** Adding an extension of neither '.' nor '/' to a name and stripping it gives the name back. */
  lemma {:induction false} StripAddedExtension(base: string, ext: string)
    requires ext != "" && '.' !in ext && '/' !in ext
    ensures StripExtension(base + "." + ext) == base
  {
    var s := base + "." + ext;
    assert ExtensionAt(s, |base|) by {
      forall k | |base| < k < |s|
        ensures s[k] != '.' && s[k] != '/'
      {
        assert s[k] == ext[k - |base| - 1];
      }
    }
    StripExtensionMatchesRegex(s);
    assert s[..|base|] == base;
  }

  /** The last segment of a name with an added extension is that extension. */
  lemma LastSegmentOfAdded(base: string, ext: string)
    requires '.' !in ext
    ensures LastSegment(base + "." + ext) == ext
  {
    var s := base + "." + ext;
    assert s[|base|] == '.';
    forall k | |base| < k < |s|
      ensures s[k] != '.'
    {
      assert s[k] == ext[k - |base| - 1];
    }
    assert LastIndexOf(s, '.') == |base|;
    assert s[|base| + 1..] == ext;
  }

  /** The edge cases of the regular expression strip. */
  lemma StripExtensionExamples()
    ensures StripExtension("a.b.c") == "a.b"
    ensures StripExtension("a.") == "a."
    ensures StripExtension("a") == "a"
    ensures StripExtension(".bashrc") == ""
    ensures StripExtension("v1.0/clip") == "v1.0/clip"
  {
    StripAddedExtension("a.b", "c");
    assert "a.b" + "." + "c" == "a.b.c";
    StripAddedExtension("", "bashrc");
    assert "" + "." + "bashrc" == ".bashrc";
    var s := "v1.0/clip";
    StripExtensionMatchesRegex(s);
    assert s[4] == '/';
  }
}
