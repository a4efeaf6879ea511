/**
 * The name of the output video, derived in `main` from the chosen input path:
 * the path is cut at its last '.' (the whole path when it has none) and
 * "F" + ".avi" is appended.
 */
module OutputName {
  import opened Types

  /** What `main` appends to the cut path. */
  const Suffix: string := "F.avi"

  /** `std::string::find_last_of(c)`: the index of the last `c` in `s`, or None for `npos`. */
  function FindLastOf(s: string, c: char): (r: Option<nat>)
    ensures r.Some? ==> r.value < |s| && s[r.value] == c
    ensures r.Some? ==> forall j :: r.value < j < |s| ==> s[j] != c
    ensures r.None? ==> forall j :: 0 <= j < |s| ==> s[j] != c
  {
    if |s| == 0 then None
    else if s[|s| - 1] == c then Some(|s| - 1)
    else FindLastOf(s[..|s| - 1], c)
  }

  /** `s.substr(0, count)`: at most `count` leading characters; `npos` takes them all. */
  function Substr0(s: string, count: Option<nat>): (r: string)
    ensures count.None? ==> r == s
    ensures count.Some? && count.value <= |s| ==> r == s[..count.value]
  {
    match count
    case None => s
    case Some(n) => if n <= |s| then s[..n] else s
  }

  /** `OpenFileNamestr.substr(0, pAt) + "F" + ".avi"` with `pAt = find_last_of('.')`. */
  function DeriveName(path: string): (name: string)
    // the name is a prefix of the path followed by the suffix
    ensures |Suffix| <= |name| <= |path| + |Suffix|
    ensures name[|name| - |Suffix|..] == Suffix
    ensures name[..|name| - |Suffix|] == path[..|name| - |Suffix|]
    // the prefix stops exactly at the last '.', or is the whole path when there is none
    ensures |name| - |Suffix| < |path| <==> exists j :: 0 <= j < |path| && path[j] == '.'
    ensures |name| - |Suffix| < |path| ==> path[|name| - |Suffix|] == '.'
    ensures forall j :: |name| - |Suffix| < j < |path| ==> path[j] != '.'
  {
    var pAt := FindLastOf(path, '.');
    Substr0(path, pAt) + "F" + ".avi"
  }

  /** The cut-off part: from the last '.' to the end of the path (empty when there is no '.'). */
  function Extension(path: string): (ext: string)
  {
    var cut := |DeriveName(path)| - |Suffix|;
    path[cut..]
  }

  /** The path is exactly the kept prefix followed by the removed extension, and
      the extension is either empty or one '.' followed by dot-free characters. */
  lemma PathSplitsAtLastDot(path: string)
    ensures path == DeriveName(path)[..|DeriveName(path)| - |Suffix|] + Extension(path)
    ensures Extension(path) == [] || Extension(path)[0] == '.'
    ensures forall j :: 0 < j < |Extension(path)| ==> Extension(path)[j] != '.'
  {
    var name := DeriveName(path);
    var cut := |name| - |Suffix|;
    assert name[..cut] == path[..cut];
    assert path == path[..cut] + path[cut..];
    forall j | 0 < j < |Extension(path)|
      ensures Extension(path)[j] != '.'
    {
      assert Extension(path)[j] == path[cut + j];
    }
  }

  /** The output name never equals the input path, so the sink never overwrites the source. */
  lemma NameDiffersFromPath(path: string)
    ensures DeriveName(path) != path
  {
    // at the cut the name holds the 'F' of the suffix while the path holds '.' or has ended
  }

  /** A '.' with no '.' after it is where the path is cut. */
  lemma CutAtLastDot(path: string, k: nat)
    requires k < |path| && path[k] == '.'
    requires forall j :: k < j < |path| ==> path[j] != '.'
    ensures DeriveName(path) == path[..k] + Suffix
  {
    var r := FindLastOf(path, '.');
    assert r.Some?;
    assert r.value == k;
  }

  /** Deriving a name from a derived name only adds another "F": its last '.' is the one before "avi". */
  lemma DeriveTwice(path: string)
    ensures DeriveName(DeriveName(path)) == DeriveName(path)[..|DeriveName(path)| - 4] + Suffix
  {
    var name := DeriveName(path);
    var n := |name|;
    assert name[n - 5..] == Suffix;
    forall j | n - 4 <= j < n ensures name[j] == Suffix[j - (n - 5)] {
      assert name[j] == name[n - 5..][j - (n - 5)];
    }
    CutAtLastDot(name, n - 4);
  }

  /** A '.' in a directory name cuts the path there when the file name itself has none. */
  lemma DotInDirectoryCutsDirectory()
    ensures DeriveName("clips.v1/take") == "clipsF.avi"
  {
    var path := "clips.v1/take";
    assert path[5] == '.';
    assert forall j :: 5 < j < |path| ==> path[j] != '.';
    var name := DeriveName(path);
    assert |name| - |Suffix| == 5;
    assert name == path[..5] + Suffix;
  }
}
