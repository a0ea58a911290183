/**
 * The two path rules the core relies on: `os.path.splitext` (POSIX), which
 * the processor registry uses to find a file's extension, and
 * `pathlib.PurePosixPath.suffix` / `with_suffix`, which the vector store uses
 * to place its chunk file beside its index file.
 */
module Paths {
  import opened Text
  import opened Records

  /** Some character of `p[lo..hi]` is not a dot. */
  predicate HasNonDot(p: string, lo: int, hi: int)
    requires 0 <= lo <= hi <= |p|
  {
    exists k :: lo <= k < hi && p[k] != '.'
  }

  /**
   * Python's `os.path.splitext(p)[1]`: from the last '.' of the last path
   * component to the end, provided that component does not consist of dots
   * only up to that '.'; otherwise "".
   */
  function Extension(p: string): (ext: string)
    ensures ext == [] || (ext[0] == '.' && EndsWith(p, ext))
    ensures forall k :: 0 < k < |ext| ==> ext[k] != '.' && ext[k] != '/'
  {
    var sep := LastIndexOf(p, '/');
    var dot := LastIndexOf(p, '.');
    if dot > sep && HasNonDot(p, sep + 1, dot) then p[dot..] else ""
  }

  /** A '/'-free stem that is not all dots, followed by "." and a '.'- and '/'-free word, has that extension. */
  lemma ExtensionOf(stem: string, word: string)
    requires forall k :: 0 <= k < |stem| ==> stem[k] != '/'
    requires exists k :: 0 <= k < |stem| && stem[k] != '.'
    requires forall k :: 0 <= k < |word| ==> word[k] != '.' && word[k] != '/'
    ensures Extension(stem + "." + word) == "." + word
  {
    var p := stem + "." + word;
    var dot := |stem|;
    assert p[dot] == '.';
    assert forall k :: dot < k < |p| ==> p[k] == word[k - dot - 1];
    assert LastIndexOf(p, '.') == dot;
    assert forall k :: 0 <= k < |p| ==> p[k] != '/';
    assert LastIndexOf(p, '/') == -1;
    var k :| 0 <= k < |stem| && stem[k] != '.';
    assert p[k] == stem[k];
    assert p[dot..] == "." + word;
  }

  /** A path whose last component holds no '.' has no extension. */
  lemma NoDotNoExtension(p: string)
    requires forall k :: 0 <= k < |p| ==> p[k] != '.'
    ensures Extension(p) == ""
  {
  }

  /** The last component of a path (`PurePosixPath(p).name`, for a path without a trailing '/'). */
  function PathName(p: string): string {
    AfterLast(p, '/')
  }

  /**
   * `PurePosixPath(p).suffix`: from the last '.' of the name, when that '.'
   * is neither the first nor the last character of the name; otherwise "".
   */
  function Suffix(p: string): (suffix: string)
    ensures suffix == [] || (suffix[0] == '.' && |suffix| >= 2 && EndsWith(PathName(p), suffix))
    ensures suffix != [] ==> |suffix| < |PathName(p)|
  {
    var name := PathName(p);
    var i := LastIndexOf(name, '.');
    if 0 < i < |name| - 1 then name[i..] else ""
  }

  /**
   * `PurePosixPath(p).with_suffix(s)`: the path with its suffix replaced by
   * (or, when it has none, extended with) `s`; `ValueError` when the name is empty.
   */
  function WithSuffix(p: string, s: string): (r: Result<string, string>)
    ensures r.Err? <==> PathName(p) == []
    ensures r.Ok? ==> EndsWith(r.value, s) && |r.value| == |p| - |Suffix(p)| + |s|
    ensures r.Ok? ==> r.value[..|p| - |Suffix(p)|] == p[..|p| - |Suffix(p)|]
  {
    if PathName(p) == [] then Err(p + " has an empty name")
    else
      var base := p[..|p| - |Suffix(p)|];
      var out := base + s;
      assert out[..|base|] == base;
      assert out[|out| - |s|..] == s;
      Ok(out)
  }

  /** `storage/vs_<id>.index` has its chunk file at `storage/vs_<id>.json`. */
  lemma {:induction false} IndexChunkPath(id: string)
    requires forall k :: 0 <= k < |id| ==> id[k] != '/' && id[k] != '.'
    ensures WithSuffix("storage/vs_" + id + ".index", ".json") == Ok("storage/vs_" + id + ".json")
  {
    var p := "storage/vs_" + id + ".index";
    var n := |"storage/vs_" + id|;
    assert p[7] == '/';
    assert forall k :: 8 <= k < |p| ==> p[k] != '/' by {
      forall k | 8 <= k < |p| ensures p[k] != '/' {
        if k < 11 { } else if k < n { assert p[k] == id[k - 11]; } else { assert p[k] == ".index"[k - n]; }
      }
    }
    assert LastIndexOf(p, '/') == 7;
    var name := PathName(p);
    assert name == "vs_" + id + ".index";
    assert name[|name| - 6] == '.';
    assert forall k :: |name| - 6 < k < |name| ==> name[k] != '.';
    assert LastIndexOf(name, '.') == |name| - 6;
    assert Suffix(p) == ".index";
    assert p[..|p| - 6] == "storage/vs_" + id;
  }
}
