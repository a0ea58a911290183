/**
 * The migration checker (scripts/check_migrations.py): every enum type a
 * migration's `upgrade` creates must be dropped by a non-comment
 * `DROP TYPE <name>` line of its `downgrade`. The directory listing and the
 * enum names found by the `sa.Enum(..., name='...')` pattern are inputs.
 */
module CheckMigrations {
  import opened Records
  import opened Text
  import opened Seqs

  /** A file of the migrations directory, with its text. */
  datatype MigrationFile = MigrationFile(name: string, content: string)

  /** One reported error: the file and the enum it does not drop. */
  datatype MissingDrop = MissingDrop(fileName: string, enumName: string)

  const UpgradeHeader := "def upgrade() -> None:"
  const DowngradeHeader := "def downgrade() -> None:"

  /** Only Python files other than the package marker are checked. */
  predicate IsChecked(name: string) {
    EndsWith(name, ".py") && name != "__init__.py"
  }

  datatype Sections = Sections(upgrade: string, downgrade: string)

  /**
   * The two regular-expression searches, for headers `open` and `close`:
   * the first body runs from the first `open` to the next `close` (the lazy
   * match), the second from the first `close` to the end of the file.
   * When the first `open` has no `close` after it, no later one has either,
   * so the search fails.
   */
  function ParseBetween(content: string, open: string, close: string): Option<Sections> {
    var u := Find(content, open, 0);
    if u < 0 then None
    else
      var d := Find(content, close, u + |open|);
      if d < 0 then None
      else
        var k := Find(content, close, 0);
        Some(Sections(content[u + |open|..d], content[k + |close|..]))
  }

  function ParseSections(content: string): Option<Sections> {
    ParseBetween(content, UpgradeHeader, DowngradeHeader)
  }

  /** `body` follows some `open` in `content` and is followed by a `close`. */
  ghost predicate Enclosed(content: string, open: string, close: string, body: string) {
    exists i :: OccursAt(content, open, i) && OccursAt(content, close, i + |open| + |body|)
  }

  /**
   * A parsed first body lies between an `open` and a `close` and contains
   * no `close`; the second body is all that follows a `close`.
   */
  lemma BetweenFound(content: string, open: string, close: string, r: Sections)
    requires |close| > 0 && ParseBetween(content, open, close) == Some(r)
    ensures Enclosed(content, open, close, r.upgrade)
    ensures !Contains(r.upgrade, close)
    ensures EndsWith(content, r.downgrade)
    ensures OccursAt(content, close, |content| - |r.downgrade| - |close|)
  {
    var u, d := UpgradeBounds(content, open, close, r);
    UpgradeFound(content, open, close, u, d, r.upgrade);
    DowngradeFound(content, open, close, r);
  }

  /** A body between an `open` at `u` and the first `close` after it, at `d`, holds no `close`. */
  lemma UpgradeFound(content: string, open: string, close: string, u: nat, d: nat, body: string)
    requires |close| > 0
    requires OccursAt(content, open, u) && OccursAt(content, close, d) && u + |open| <= d
    requires body == content[u + |open|..d]
    requires forall i :: u + |open| <= i < d ==> !OccursAt(content, close, i)
    ensures Enclosed(content, open, close, body)
    ensures !Contains(body, close)
  {
    FirstBody(content, open, close, u, d, body);
    BodyHasNoClose(content, close, u + |open|, d);
  }

  /** Where the first body starts and ends: after the first `open`, up to the next `close`. */
  lemma UpgradeBounds(content: string, open: string, close: string, r: Sections) returns (u: nat, d: nat)
    requires ParseBetween(content, open, close) == Some(r)
    ensures OccursAt(content, open, u) && OccursAt(content, close, d) && u + |open| <= d
    ensures r.upgrade == content[u + |open|..d]
    ensures forall i :: u + |open| <= i < d ==> !OccursAt(content, close, i)
  {
    u := Find(content, open, 0);
    d := Find(content, close, u + |open|);
    FindFirst(content, close, u + |open|);
  }

  /** The second body is everything after the first `close`. */
  lemma DowngradeFound(content: string, open: string, close: string, r: Sections)
    requires ParseBetween(content, open, close) == Some(r)
    ensures EndsWith(content, r.downgrade)
    ensures OccursAt(content, close, |content| - |r.downgrade| - |close|)
  {
    var d := Find(content, close, Find(content, open, 0) + |open|);
    var k := Find(content, close, 0);
    FindFirst(content, close, 0);
    assert OccursAt(content, close, d);
    assert r.downgrade == content[k + |close|..];
    SecondBody(content, close, k, r.downgrade);
  }

  /** The text `body` between an `open` at `u` and a `close` at `d`. */
  lemma FirstBody(content: string, open: string, close: string, u: int, d: int, body: string)
    requires OccursAt(content, open, u) && OccursAt(content, close, d) && u + |open| <= d
    requires body == content[u + |open|..d]
    ensures Enclosed(content, open, close, body)
  {
    assert OccursAt(content, close, u + |open| + |body|);
  }

  /** The text `body` after a `close` at `k` ends the content, right after that `close`. */
  lemma SecondBody(content: string, close: string, k: int, body: string)
    requires OccursAt(content, close, k) && body == content[k + |close|..]
    ensures EndsWith(content, body) && OccursAt(content, close, |content| - |body| - |close|)
  {
  }

  /** Parsing fails only when no `close` follows any `open`. */
  lemma BetweenMissing(content: string, open: string, close: string)
    requires ParseBetween(content, open, close).None?
    ensures forall i, j :: OccursAt(content, open, i) && OccursAt(content, close, j) ==> j < i + |open|
  {
    var u := Find(content, open, 0);
    FindFirst(content, open, 0);
    if u >= 0 {
      var d := Find(content, close, u + |open|);
      FindFirst(content, close, u + |open|);
      assert d < 0;
      forall i, j | OccursAt(content, open, i) && OccursAt(content, close, j) ensures j < i + |open| {
        assert u <= i;
      }
    }
  }

  /** `close` occurs nowhere in `content[from..d]` when `d` is its first occurrence from `from`. */
  lemma BodyHasNoClose(content: string, close: string, from: nat, d: nat)
    requires |close| > 0
    requires from <= d && forall i :: from <= i < d ==> !OccursAt(content, close, i)
    requires d + |close| <= |content|
    ensures !Contains(content[from..d], close)
  {
    ContainsIff(content[from..d], close);
    if Contains(content[from..d], close) {
      var i :| OccursAt(content[from..d], close, i);
      OccursInSlice(content, close, from, d, i);
    }
  }

  /** An occurrence inside `content[from..d]` is one in `content`, before `d`. */
  lemma OccursInSlice(content: string, pat: string, from: nat, d: nat, i: nat)
    requires |pat| > 0 && from <= d <= |content|
    requires OccursAt(content[from..d], pat, i)
    ensures from + i < d && OccursAt(content, pat, from + i)
  {
    var body := content[from..d];
    forall k | 0 <= k < |pat| ensures content[from + i + k] == pat[k] {
      assert body[i..i + |pat|][k] == body[i + k];
    }
    assert content[from + i..from + i + |pat|] == pat;
  }

  /** The first non-blank character of the line is `#`; `CommentIff` ties this to `line.strip().startswith("#")`. */
  predicate IsComment(line: string) {
    var t := StripLeft(line);
    t != [] && t[0] == '#'
  }

  /** Looking past leading blanks is the same test as stripping and checking the prefix. */
  lemma CommentIff(line: string)
    ensures IsComment(line) <==> StartsWith(Strip(line), "#")
  {
    var t := StripLeft(line);
    var r := StripRight(t);
    assert Strip(line) == r;
    if t != [] {
      assert r != [];
      assert r[0] == t[0];
      assert StartsWith(r, "#") <==> r[0] == '#' by {
        assert r[..1] == [r[0]];
      }
    }
  }

  /** The compiled pattern "DROP TYPE <name>", matched ignoring case. */
  function DropPattern(enumName: string): string {
    Lower("DROP TYPE " + enumName)
  }

  /** A line that is not a comment and contains the pattern, ignoring case. */
  predicate MatchesDrop(line: string, pattern: string) {
    !IsComment(line) && Contains(Lower(line), pattern)
  }

  /** A line drops the enum. */
  predicate DropsEnum(line: string, enumName: string) {
    MatchesDrop(line, DropPattern(enumName))
  }

  /** The inner loop: whether some line matches the enum's pattern. */
  method FindDrop(lines: seq<string>, pattern: string) returns (found: bool)
    ensures found <==> exists i :: 0 <= i < |lines| && MatchesDrop(lines[i], pattern)
  {
    found := false;
    var i := 0;
    while i < |lines|
      invariant 0 <= i <= |lines|
      invariant !found
      invariant forall k :: 0 <= k < i ==> !MatchesDrop(lines[k], pattern)
    {
      var line := lines[i];
      if IsComment(line) {
        i := i + 1;
        continue;
      }
      if Contains(Lower(line), pattern) {
        found := true;
        break;
      }
      i := i + 1;
    }
  }

  predicate Dropped(downgrade: string, enumName: string) {
    exists i :: 0 <= i < |SplitLines(downgrade)| && DropsEnum(SplitLines(downgrade)[i], enumName)
  }

  /** The enums of `created` not dropped by `downgrade`, in order. */
  function Undropped(created: seq<string>, downgrade: string): (r: seq<string>)
    ensures |r| <= |created|
    ensures forall e :: e in r <==> e in created && !Dropped(downgrade, e)
    decreases |created|
  {
    if created == [] then []
    else
      var prev := Undropped(created[..|created| - 1], downgrade);
      var e := created[|created| - 1];
      assert created == created[..|created| - 1] + [e];
      if Dropped(downgrade, e) then prev else prev + [e]
  }

  /** One turn of the enum loop: the next enum is reported when no line drops it. */
  lemma UndroppedStep(created: seq<string>, n: nat, downgrade: string)
    requires n < |created|
    ensures Undropped(created[..n + 1], downgrade)
      == Undropped(created[..n], downgrade) + if Dropped(downgrade, created[n]) then [] else [created[n]]
  {
    assert created[..n + 1][..n] == created[..n];
  }

  /** The errors one file contributes: none when it is skipped or cannot be parsed. */
  function FileErrors(file: MigrationFile, enumsOf: string -> seq<string>): (r: seq<MissingDrop>)
  {
    if !IsChecked(file.name) then []
    else
      match ParseSections(file.content)
      case None => []
      case Some(sections) =>
        var missing := Undropped(enumsOf(sections.upgrade), sections.downgrade);
        seq(|missing|, i requires 0 <= i < |missing| => MissingDrop(file.name, missing[i]))
  }

  /** The errors of the whole listing, file by file. */
  function AllErrors(files: seq<MigrationFile>, enumsOf: string -> seq<string>): seq<MissingDrop> {
    ConcatMap(files, (file: MigrationFile) => FileErrors(file, enumsOf))
  }

  /**
   * A file reports an enum exactly when the file is checked, its sections
   * parse, the upgrade creates the enum and no downgrade line drops it.
   */
  lemma FileErrorsIff(file: MigrationFile, enumsOf: string -> seq<string>, enumName: string)
    ensures MissingDrop(file.name, enumName) in FileErrors(file, enumsOf) <==>
      && IsChecked(file.name)
      && ParseSections(file.content).Some?
      && enumName in enumsOf(ParseSections(file.content).value.upgrade)
      && !Dropped(ParseSections(file.content).value.downgrade, enumName)
  {
    var errs := FileErrors(file, enumsOf);
    if IsChecked(file.name) && ParseSections(file.content).Some? {
      var sections := ParseSections(file.content).value;
      var missing := Undropped(enumsOf(sections.upgrade), sections.downgrade);
      if enumName in missing {
        var i :| 0 <= i < |missing| && missing[i] == enumName;
        assert errs[i] == MissingDrop(file.name, enumName);
      }
      if MissingDrop(file.name, enumName) in errs {
        var i :| 0 <= i < |errs| && errs[i] == MissingDrop(file.name, enumName);
        assert missing[i] == enumName;
      }
    }
  }

  /** The per-file check: the errors of one file, one per undropped enum, in creation order. */
  method CheckFile(file: MigrationFile, enumsOf: string -> seq<string>) returns (errors: seq<MissingDrop>)
    ensures errors == FileErrors(file, enumsOf)
  {
    errors := [];
    if !IsChecked(file.name) {
      return;
    }
    var sections := ParseSections(file.content);
    if sections.None? {
      return;
    }
    var created := enumsOf(sections.value.upgrade);
    if created == [] {
      return;
    }
    var lines := SplitLines(sections.value.downgrade);
    var missing: seq<string> := [];
    var n := 0;
    while n < |created|
      invariant 0 <= n <= |created|
      invariant missing == Undropped(created[..n], sections.value.downgrade)
    {
      var pattern := DropPattern(created[n]);
      var found := FindDrop(lines, pattern);
      UndroppedStep(created, n, sections.value.downgrade);
      if !found {
        missing := missing + [created[n]];
      }
      n := n + 1;
    }
    assert created[..n] == created;
    errors := seq(|missing|, i requires 0 <= i < |missing| => MissingDrop(file.name, missing[i]));
  }

  /** `main`: every file of the listing is checked; the exit code is 1 when any error was reported, else 0. */
  method CheckAll(files: seq<MigrationFile>, enumsOf: string -> seq<string>) returns (exitCode: int, errors: seq<MissingDrop>)
    ensures errors == AllErrors(files, enumsOf)
    ensures exitCode == 1 <==> exists i :: 0 <= i < |files| && FileErrors(files[i], enumsOf) != []
    ensures exitCode == 0 || exitCode == 1
  {
    ghost var check := (file: MigrationFile) => FileErrors(file, enumsOf);
    errors := [];
    var hasErrors := false;
    var i := 0;
    while i < |files|
      invariant 0 <= i <= |files|
      invariant errors == ConcatMap(files[..i], check)
      invariant hasErrors <==> errors != []
    {
      var fileErrors := CheckFile(files[i], enumsOf);
      if fileErrors != [] {
        hasErrors := true;
      }
      errors := errors + fileErrors;
      assert files[..i + 1][..i] == files[..i];
      assert check(files[i]) == fileErrors;
      i := i + 1;
    }
    assert files[..i] == files;
    ConcatMapEmpty(files, check);
    exitCode := if hasErrors then 1 else 0;
  }
}
