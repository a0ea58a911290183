/**
 * The processor registry (core/nexusmind/processor/registry.py): a
 * dictionary from normalised file extension to processor, filled by
 * `register_processor` and consulted by `get_processor`.
 */
module Registry {
  import opened Text
  import opened Records
  import opened Paths

  /** The key under which `register_processor` stores an extension: lower-cased, with a leading '.'. */
  function NormalizeExtension(ext: string): (key: string)
    ensures StartsWith(key, ".")
    ensures key == Lower(ext) || key == "." + Lower(ext)
    ensures StartsWith(Lower(ext), ".") <==> key == Lower(ext)
  {
    var l := Lower(ext);
    if StartsWith(l, ".") then l else "." + l
  }

  /** The message of the `ValueError` raised for an unregistered extension. */
  function NotRegistered(ext: string): string {
    "No processor registered for file type '" + ext + "'"
  }

  /** Every key has the form `register_processor` gives it. */
  predicate KeysNormalised<P>(processors: map<string, P>) {
    forall key :: key in processors ==> StartsWith(key, ".") && Lower(key) == key
  }

  /**
   * `get_processor(file_path)`: the processor registered under the
   * lower-cased `splitext` extension of the path, or the error naming that
   * extension.
   */
  function Lookup<P>(processors: map<string, P>, filePath: string): (r: Result<P, string>)
    ensures var ext := Lower(Extension(filePath));
      && (r.Ok? <==> ext in processors)
      && (r.Ok? ==> r.value == processors[ext])
      && (r.Err? ==> r.error == NotRegistered(ext))
  {
    var ext := Lower(Extension(filePath));
    if ext in processors then Ok(processors[ext]) else Err(NotRegistered(ext))
  }

  class ProcessorRegistry<P> {
    var processors: map<string, P>

    ghost predicate Valid()
      reads this
    {
      KeysNormalised(processors)
    }

    constructor ()
      ensures Valid() && processors == map[]
    {
      processors := map[];
    }

    /** Stores `processor` under the normalised extension, overwriting any earlier entry for it. */
    method RegisterProcessor(fileExtension: string, processor: P)
      requires Valid()
      modifies this
      ensures Valid()
      ensures processors == old(processors)[NormalizeExtension(fileExtension) := processor]
    {
      var key := NormalizeExtension(fileExtension);
      LowerKey(fileExtension);
      processors := processors[key := processor];
    }

    /** Looks the path's extension up; changes nothing. */
    method GetProcessor(filePath: string) returns (r: Result<P, string>)
      ensures r == Lookup(processors, filePath)
    {
      var ext := Lower(Extension(filePath));
      if ext in processors {
        r := Ok(processors[ext]);
      } else {
        r := Err(NotRegistered(ext));
      }
    }
  }

  lemma LowerIdempotent(s: string)
    ensures Lower(Lower(s)) == Lower(s)
  {
  }

  /** A normalised key is already lower-case. */
  lemma LowerKey(ext: string)
    ensures Lower(NormalizeExtension(ext)) == NormalizeExtension(ext)
  {
    var l := Lower(ext);
    LowerIdempotent(ext);
    if !StartsWith(l, ".") {
      assert Lower("." + l) == "." + Lower(l);
    }
  }

  /** Registration ignores case and a missing leading dot: "PDF", "pdf", ".PDF" and ".pdf" name one key. */
  lemma NormaliseInsensitive(e: string)
    requires !StartsWith(e, ".")
    ensures NormalizeExtension(e) == NormalizeExtension("." + e)
    ensures NormalizeExtension(e) == NormalizeExtension(Lower(e))
  {
    assert Lower("." + e) == "." + Lower(e);
    LowerIdempotent(e);
    assert Lower(e) == [] || Lower(e)[0] == LowerChar(e[0]);
  }

  /** Once an extension is registered, a path with that extension in any case resolves to its processor. */
  lemma RegisterThenLookup<P>(processors: map<string, P>, ext: string, p: P, filePath: string)
    requires Lower(Extension(filePath)) == NormalizeExtension(ext)
    ensures Lookup(processors[NormalizeExtension(ext) := p], filePath) == Ok(p)
  {
  }

  /** Registering one extension leaves the lookup of every other extension as it was. */
  lemma RegisterKeepsOthers<P>(processors: map<string, P>, ext: string, p: P, filePath: string)
    requires Lower(Extension(filePath)) != NormalizeExtension(ext)
    ensures Lookup(processors[NormalizeExtension(ext) := p], filePath) == Lookup(processors, filePath)
  {
  }

  /** A path without an extension is never resolved, since every key starts with '.'. */
  lemma NoExtensionFails<P>(processors: map<string, P>, filePath: string)
    requires KeysNormalised(processors)
    requires Extension(filePath) == ""
    ensures Lookup(processors, filePath) == Err(NotRegistered(""))
  {
    assert Lower("") == "";
  }

  /**
   * The registry's own scenario: ".txt" then "PDF" registered, "document.txt"
   * and "report.PDF" resolve; in an empty registry "archive.zip" fails naming ".zip".
   */
  lemma RegistryScenario<P>(p: P)
    ensures var m := map[][NormalizeExtension(".txt") := p][NormalizeExtension("PDF") := p];
      Lookup(m, "document.txt") == Ok(p) && Lookup(m, "report.PDF") == Ok(p)
    ensures Lookup<P>(map[], "archive.zip") == Err("No processor registered for file type '.zip'")
  {
    ScenarioKeys();
    ScenarioExtensions();
    ZipExtension();
  }

  /** The keys of ".txt" and "PDF". */
  lemma ScenarioKeys()
    ensures NormalizeExtension(".txt") == ".txt" && NormalizeExtension("PDF") == ".pdf"
  {
    LowerAscii(".txt", ".txt");
    LowerAscii("PDF", "pdf");
    assert "pdf"[..1][0] != '.';
  }

  /** A lower-casing checked character by character. */
  lemma LowerAscii(s: string, t: string)
    requires |s| == |t| && forall i :: 0 <= i < |s| ==> LowerChar(s[i]) == t[i]
    ensures Lower(s) == t
  {
  }

  /** The extension of `stem.word`, lower-cased, is "." followed by `word` lower-cased. */
  lemma LowerExtensionOf(stem: string, word: string, path: string, lower: string)
    requires |stem| > 0 && stem[0] != '.' && '/' !in stem
    requires '.' !in word && '/' !in word
    requires path == stem + "." + word
    requires |lower| == |word| && forall k :: 0 <= k < |word| ==> LowerChar(word[k]) == lower[k]
    ensures Lower(Extension(path)) == "." + lower
  {
    assert forall k :: 0 <= k < |stem| ==> stem[k] != '/';
    assert forall k :: 0 <= k < |word| ==> word[k] != '.' && word[k] != '/';
    ExtensionOf(stem, word);
    LowerAscii("." + word, "." + lower);
  }

  /** The lower-cased extensions of the scenario's two registered paths. */
  lemma ScenarioExtensions()
    ensures Lower(Extension("document.txt")) == ".txt"
    ensures Lower(Extension("report.PDF")) == ".pdf"
  {
    LowerExtensionOf("document", "txt", "document.txt", "txt");
    LowerExtensionOf("report", "PDF", "report.PDF", "pdf");
  }

  /** The lower-cased extension of the scenario's unregistered path, and the message naming it. */
  lemma ZipExtension()
    ensures Lower(Extension("archive.zip")) == ".zip"
    ensures NotRegistered(".zip") == "No processor registered for file type '.zip'"
  {
    LowerExtensionOf("archive", "zip", "archive.zip", "zip");
  }
}
