/** The search tools (codeagent/tools/search_tools.py). grep_search walks a
    directory tree top-down, pruning excluded and hidden directories, and
    reports every line holding the pattern as "path:line: text", stopping at
    100 hits; glob_search lists at most 100 of the paths a glob produced. The
    tree is given as a value, the glob's matches as a given list. */
module Search {
  import opened Common

  /** A file of the tree: its name and its lines (each with its line ending,
      as Python iterates them), or None when opening it fails. */
  datatype FileEntry = FileEntry(name: string, lines: Option<seq<string>>)

  datatype Folder = Folder(name: string, files: seq<FileEntry>, folders: seq<Folder>)

  /** What `Path(args.path)` names: nothing, a plain file, or a directory. */
  datatype RootKind = Missing | PlainFile | Directory(folder: Folder)

  /** A file as the walk reaches it: its joined path and its lines. */
  datatype Visited = Visited(path: string, lines: Option<seq<string>>)

  const DefaultExclude: set<string> := {".git", ".venv", "__pycache__", "node_modules"}
  const MaxHits: nat := 100
  const MaxShown: nat := 200
  const HitsTruncated: string := "... (results truncated after 100 matches)"
  const NoMatches: string := "No matches found."
  const NoFiles: string := "No matching files found."

  function MissingPath(path: string): string {
    "Error: Path " + path + " does not exist"
  }

  function JoinPath(dir: string, name: string): string {
    dir + "/" + name
  }

  // ---------------------------------------------------------------------------
  // The walk

  /** The pruning rule: excluded names and names starting with "." are not entered. */
  predicate Pruned(name: string, exclude: set<string>) {
    name in exclude || "." <= name
  }

  function FilesOf(path: string, files: seq<FileEntry>): (vs: seq<Visited>)
    ensures |vs| == |files|
    ensures forall i :: 0 <= i < |files| ==> vs[i] == Visited(JoinPath(path, files[i].name), files[i].lines)
  {
    seq(|files|, i requires 0 <= i < |files| => Visited(JoinPath(path, files[i].name), files[i].lines))
  }

  /** os.walk(path) top-down, flattened to the files it reaches: a folder's own
      files first, then each sub-folder that survives pruning, in listing order. */
  function Walk(path: string, d: Folder, exclude: set<string>): seq<Visited>
    decreases d, 1
  {
    FilesOf(path, d.files) + WalkFrom(path, d, 0, exclude)
  }

  function WalkFrom(path: string, parent: Folder, i: nat, exclude: set<string>): seq<Visited>
    decreases parent, 0, |parent.folders| - i
  {
    if i >= |parent.folders| then []
    else
      var child := parent.folders[i];
      (if Pruned(child.name, exclude) then [] else Walk(JoinPath(path, child.name), child, exclude))
      + WalkFrom(path, parent, i + 1, exclude)
  }

  /** A pruned folder adds nothing to the walk, whatever it holds. */
  lemma PrunedFolderAddsNothing(path: string, parent: Folder, i: nat, exclude: set<string>)
    requires i < |parent.folders| && Pruned(parent.folders[i].name, exclude)
    ensures WalkFrom(path, parent, i, exclude) == WalkFrom(path, parent, i + 1, exclude)
  {
  }

  /** The walk starts with the folder's own files. */
  lemma WalkStartsWithOwnFiles(path: string, d: Folder, exclude: set<string>)
    ensures FilesOf(path, d.files) <= Walk(path, d, exclude)
  {
  }

  // ---------------------------------------------------------------------------
  // Matching and hit lines

  /** `search_pattern in line_content`; the pattern is already lower-cased
      when the search is case-insensitive. */
  predicate Matches(line: string, searchPattern: string, caseSensitive: bool) {
    Contains(if caseSensitive then line else Lower(line), searchPattern)
  }

  function SearchPattern(pattern: string, caseSensitive: bool): string {
    if caseSensitive then pattern else Lower(pattern)
  }

  /** `line.strip()[:200]`: the first 200 characters of the stripped line. */
  function Shown(line: string): (r: string)
    ensures |r| == if |Strip(line)| <= MaxShown then |Strip(line)| else MaxShown
    ensures r <= Strip(line)
  {
    Prefix(Strip(line), MaxShown)
  }

  function HitLine(path: string, number: nat, line: string): string {
    path + ":" + NatToString(number) + ": " + Shown(line)
  }

  /** The hit lines of one file, numbering its lines from 1. */
  function LineHits(path: string, lines: seq<string>, searchPattern: string, caseSensitive: bool): seq<string> {
    if |lines| == 0 then []
    else
      var n := |lines|;
      LineHits(path, lines[..n - 1], searchPattern, caseSensitive)
        + (if Matches(lines[n - 1], searchPattern, caseSensitive) then [HitLine(path, n, lines[n - 1])] else [])
  }

  /** The hit lines of every file reached, in walk order; a file that cannot be opened is skipped. */
  function FileHits(files: seq<Visited>, searchPattern: string, caseSensitive: bool): seq<string> {
    if |files| == 0 then []
    else
      var f := files[|files| - 1];
      FileHits(files[..|files| - 1], searchPattern, caseSensitive)
        + (if f.lines.Some? then LineHits(f.path, f.lines.value, searchPattern, caseSensitive) else [])
  }

  /** Line i (from 1) of the file is a match. */
  ghost predicate HitFor(path: string, lines: seq<string>, searchPattern: string, caseSensitive: bool, hit: string) {
    exists i :: 0 <= i < |lines| && Matches(lines[i], searchPattern, caseSensitive) && hit == HitLine(path, i + 1, lines[i])
  }

  /** Every hit line reports a matching line under its 1-based number. */
  lemma {:induction false} LineHitsSound(path: string, lines: seq<string>, searchPattern: string, caseSensitive: bool)
    ensures var hits := LineHits(path, lines, searchPattern, caseSensitive);
      |hits| <= |lines| &&
      forall k :: 0 <= k < |hits| ==> HitFor(path, lines, searchPattern, caseSensitive, hits[k])
    decreases |lines|
  {
    if |lines| > 0 {
      var n := |lines|;
      var init := lines[..n - 1];
      LineHitsSound(path, init, searchPattern, caseSensitive);
      var hits0 := LineHits(path, init, searchPattern, caseSensitive);
      var hits := LineHits(path, lines, searchPattern, caseSensitive);
      forall k | 0 <= k < |hits|
        ensures HitFor(path, lines, searchPattern, caseSensitive, hits[k])
      {
        if k < |hits0| {
          assert hits[k] == hits0[k];
          var i :| 0 <= i < |init| && Matches(init[i], searchPattern, caseSensitive) && hits0[k] == HitLine(path, i + 1, init[i]);
          assert lines[i] == init[i];
        } else {
          assert Matches(lines[n - 1], searchPattern, caseSensitive) && hits[k] == HitLine(path, n, lines[n - 1]);
        }
      }
    }
  }

  /** Every matching line is reported. */
  lemma LineHitsComplete(path: string, lines: seq<string>, searchPattern: string, caseSensitive: bool)
    ensures forall i :: 0 <= i < |lines| && Matches(lines[i], searchPattern, caseSensitive) ==>
      HitLine(path, i + 1, lines[i]) in LineHits(path, lines, searchPattern, caseSensitive)
  {
    forall i | 0 <= i < |lines| && Matches(lines[i], searchPattern, caseSensitive)
      ensures HitLine(path, i + 1, lines[i]) in LineHits(path, lines, searchPattern, caseSensitive)
    {
      LineReported(path, lines, searchPattern, caseSensitive, i);
    }
  }

  /** The matching line i is the last hit of the lines up to it, which are a
      prefix of all the hits. */
  lemma LineReported(path: string, lines: seq<string>, searchPattern: string, caseSensitive: bool, i: nat)
    requires i < |lines| && Matches(lines[i], searchPattern, caseSensitive)
    ensures HitLine(path, i + 1, lines[i]) in LineHits(path, lines, searchPattern, caseSensitive)
  {
    LastHit(path, lines, searchPattern, caseSensitive, i);
    LineHitsPrefix(path, lines, i + 1, searchPattern, caseSensitive);
    EndsIn(HitLine(path, i + 1, lines[i]), LineHits(path, lines[..i], searchPattern, caseSensitive),
           LineHits(path, lines, searchPattern, caseSensitive));
  }

  lemma LastHit(path: string, lines: seq<string>, searchPattern: string, caseSensitive: bool, i: nat)
    requires i < |lines| && Matches(lines[i], searchPattern, caseSensitive)
    ensures LineHits(path, lines[..i + 1], searchPattern, caseSensitive)
      == LineHits(path, lines[..i], searchPattern, caseSensitive) + [HitLine(path, i + 1, lines[i])]
  {
    var upto := lines[..i + 1];
    assert upto[..|upto| - 1] == lines[..i];
    assert upto[|upto| - 1] == lines[i];
    assert Matches(upto[|upto| - 1], searchPattern, caseSensitive);
  }

  /** The last element of a prefix is an element of the whole. */
  lemma EndsIn<T>(x: T, a: seq<T>, b: seq<T>)
    requires a + [x] <= b
    ensures x in b
  {
    assert b[|a|] == (a + [x])[|a|];
  }

  /** A hit on line i of a file reads the path, a colon, the number in
      decimal digits, a colon and a space, and then the shown line: the first
      200 characters of the stripped line. */
  lemma HitLineShape(path: string, number: nat, line: string)
    ensures var digits := NatToString(number);
      var prefix := path + ":" + digits + ": ";
      var h := HitLine(path, number, line);
      prefix <= h && h[|prefix|..] == Shown(line) &&
      h[..|path|] == path && h[|path|] == ':' && h[|path| + 1 + |digits|] == ':' &&
      (forall k :: |path| < k < |path| + 1 + |digits| ==> '0' <= h[k] <= '9') &&
      Shown(line) <= Strip(line) &&
      |Shown(line)| == (if |Strip(line)| <= MaxShown then |Strip(line)| else MaxShown)
  {
  }

  /** A line as iteration over a file yields it: a newline, if any, only at its end. */
  predicate FileLine(line: string) {
    forall k :: 0 <= k < |line| - 1 ==> line[k] != '\n'
  }

  /** The shown part of such a line holds no newline: stripping removes the
      one at the end. */
  lemma ShownOneLine(line: string)
    requires FileLine(line)
    ensures '\n' !in Shown(line)
  {
    var r := Strip(line);
    var i: nat :| SpaceAround(line, r, i);
    forall k | 0 <= k < |r|
      ensures r[k] != '\n'
    {
      assert r[k] == line[i + k];
    }
  }

  /** A hit line of such a line, with a path holding no newline, is one line of text. */
  lemma HitLineOneLine(path: string, number: nat, line: string)
    requires '\n' !in path && FileLine(line)
    ensures '\n' !in HitLine(path, number, line)
  {
  }

  /** Every hit line of a file whose lines are file lines is one line of text. */
  lemma LineHitsOneLine(path: string, lines: seq<string>, searchPattern: string, caseSensitive: bool)
    requires '\n' !in path && forall i :: 0 <= i < |lines| ==> FileLine(lines[i])
    ensures OneLineEach(LineHits(path, lines, searchPattern, caseSensitive))
  {
    LineHitsSound(path, lines, searchPattern, caseSensitive);
    var hits := LineHits(path, lines, searchPattern, caseSensitive);
    forall k | 0 <= k < |hits|
      ensures '\n' !in hits[k]
    {
      var i :| 0 <= i < |lines| && Matches(lines[i], searchPattern, caseSensitive) && hits[k] == HitLine(path, i + 1, lines[i]);
      HitLineOneLine(path, i + 1, lines[i]);
    }
  }

  /** No line of text holds a newline. */
  predicate OneLineEach(texts: seq<string>) {
    forall k :: 0 <= k < |texts| ==> '\n' !in texts[k]
  }

  /** Files whose paths hold no newline and whose lines are file lines. */
  ghost predicate PlainFiles(files: seq<Visited>) {
    forall j :: 0 <= j < |files| ==> OneLineFile(files[j])
  }

  ghost predicate OneLineFile(f: Visited) {
    '\n' !in f.path && (f.lines.Some? ==> forall i :: 0 <= i < |f.lines.value| ==> FileLine(f.lines.value[i]))
  }

  /** Every hit line of such files is one line of text. */
  lemma {:induction false} FileHitsOneLine(files: seq<Visited>, searchPattern: string, caseSensitive: bool)
    requires PlainFiles(files)
    ensures OneLineEach(FileHits(files, searchPattern, caseSensitive))
    decreases |files|
  {
    if |files| > 0 {
      var init := files[..|files| - 1];
      var f := files[|files| - 1];
      assert forall j :: 0 <= j < |init| ==> init[j] == files[j];
      assert PlainFiles(init) && OneLineFile(f);
      FileHitsOneLine(init, searchPattern, caseSensitive);
      var before := FileHits(init, searchPattern, caseSensitive);
      var here: seq<string> := [];
      if f.lines.Some? {
        here := LineHits(f.path, f.lines.value, searchPattern, caseSensitive);
        LineHitsOneLine(f.path, f.lines.value, searchPattern, caseSensitive);
      }
      var hits := FileHits(files, searchPattern, caseSensitive);
      assert hits == before + here;
      forall k | 0 <= k < |hits|
        ensures '\n' !in hits[k]
      {
        if k < |before| {
          assert hits[k] == before[k];
        } else {
          assert hits[k] == here[k - |before|];
        }
      }
    }
  }

  /** Split on newlines, the reply gives back the hit lines it shows, one per
      line, followed by the marker line once there are 100 of them. */
  lemma GrepReplyLines(hits: seq<string>)
    requires OneLineEach(hits)
    ensures |hits| >= MaxHits ==> Split(GrepReply(hits), '\n') == hits[..MaxHits] + [HitsTruncated]
    ensures 0 < |hits| < MaxHits ==> Split(GrepReply(hits), '\n') == hits
  {
    if |hits| >= MaxHits {
      var shown := hits[..MaxHits] + [HitsTruncated];
      assert '\n' !in HitsTruncated;
      assert forall k :: 0 <= k < MaxHits ==> shown[k] == hits[k];
      SplitJoin(shown, '\n');
    } else if |hits| > 0 {
      SplitJoin(hits, '\n');
    }
  }

  /** Case-insensitive search ignores the case of the pattern and of the line. */
  lemma CaseIgnored(line: string, pattern: string)
    ensures Matches(line, SearchPattern(pattern, false), false) == Matches(Lower(line), SearchPattern(Lower(pattern), false), false)
  {
    LowerTwice(line);
    LowerTwice(pattern);
  }

  lemma {:induction false} LineHitsPrefix(path: string, lines: seq<string>, k: nat, searchPattern: string, caseSensitive: bool)
    requires k <= |lines|
    ensures LineHits(path, lines[..k], searchPattern, caseSensitive) <= LineHits(path, lines, searchPattern, caseSensitive)
    decreases |lines|
  {
    if k < |lines| {
      var n := |lines|;
      assert lines[..k] == lines[..n - 1][..k];
      LineHitsPrefix(path, lines[..n - 1], k, searchPattern, caseSensitive);
    } else {
      assert lines[..k] == lines;
    }
  }

  lemma {:induction false} FileHitsPrefix(files: seq<Visited>, k: nat, searchPattern: string, caseSensitive: bool)
    requires k <= |files|
    ensures FileHits(files[..k], searchPattern, caseSensitive) <= FileHits(files, searchPattern, caseSensitive)
    decreases |files|
  {
    if k < |files| {
      var n := |files|;
      assert files[..k] == files[..n - 1][..k];
      FileHitsPrefix(files[..n - 1], k, searchPattern, caseSensitive);
    } else {
      assert files[..k] == files;
    }
  }

  /** The hits found before line k of file fi are a prefix of all the hits. */
  lemma HitsSoFar(files: seq<Visited>, fi: nat, k: nat, searchPattern: string, caseSensitive: bool)
    requires fi < |files| && files[fi].lines.Some? && k <= |files[fi].lines.value|
    ensures FileHits(files[..fi], searchPattern, caseSensitive)
        + LineHits(files[fi].path, files[fi].lines.value[..k], searchPattern, caseSensitive)
      <= FileHits(files, searchPattern, caseSensitive)
  {
    var f := files[fi];
    assert files[..fi + 1][..fi] == files[..fi];
    LineHitsPrefix(f.path, f.lines.value, k, searchPattern, caseSensitive);
    FileHitsPrefix(files, fi + 1, searchPattern, caseSensitive);
    var before := FileHits(files[..fi], searchPattern, caseSensitive);
    var here := LineHits(f.path, f.lines.value, searchPattern, caseSensitive);
    assert FileHits(files[..fi + 1], searchPattern, caseSensitive) == before + here;
    PrefixTransitive(before + LineHits(f.path, f.lines.value[..k], searchPattern, caseSensitive),
                     before + here, FileHits(files, searchPattern, caseSensitive));
  }

  // ---------------------------------------------------------------------------
  // grep_search

  function Reached(path: string, root: RootKind, exclude: set<string>): seq<Visited> {
    if root.Directory? then Walk(path, root.folder, exclude) else []
  }

  /** How grep_search renders the hits: the first 100 and the marker once
      there are 100, "No matches found." when there are none. */
  function GrepReply(hits: seq<string>): string {
    if |hits| >= MaxHits then Join(hits[..MaxHits] + [HitsTruncated], "\n")
    else if |hits| == 0 then NoMatches
    else Join(hits, "\n")
  }

  /** The text grep_search returns, from all the hits of the walk. */
  function GrepOutput(pattern: string, path: string, caseSensitive: bool, exclude: set<string>, root: RootKind): string {
    if root.Missing? then MissingPath(path)
    else GrepReply(FileHits(Reached(path, root, exclude), SearchPattern(pattern, caseSensitive), caseSensitive))
  }

  /** The loop over one file's lines: scans until the end of the file, or
      stops right after the hit that brings the list to 100, at line `stop`. */
  method ScanLines(path: string, lines: seq<string>, searchPattern: string, caseSensitive: bool,
                   before: seq<string>)
    returns (results: seq<string>, stop: Option<nat>)
    requires |before| < MaxHits
    ensures stop.None? ==> results == before + LineHits(path, lines, searchPattern, caseSensitive) && |results| < MaxHits
    ensures stop.Some? ==>
      stop.value <= |lines| && |results| == MaxHits &&
      results == before + LineHits(path, lines[..stop.value], searchPattern, caseSensitive)
  {
    results := before;
    var li := 0;
    while li < |lines|
      invariant 0 <= li <= |lines|
      invariant results == before + LineHits(path, lines[..li], searchPattern, caseSensitive)
      invariant |results| < MaxHits
    {
      var line := lines[li];
      var lineContent := if caseSensitive then line else Lower(line);
      assert lines[..li + 1][..li] == lines[..li];
      ghost var results0 := results;
      if Contains(lineContent, searchPattern) {
        results := results + [HitLine(path, li + 1, line)];
        AppendAssoc(before, LineHits(path, lines[..li], searchPattern, caseSensitive), [HitLine(path, li + 1, line)]);
        if |results| >= MaxHits {
          return results, Some(li + 1);
        }
      } else {
        AppendEmpty(results0);
      }
      li := li + 1;
    }
    assert lines[..li] == lines;
    stop := None;
  }

  /** The loop over the files reached, each scanned line by line: either all
      the hits, fewer than 100, or the first 100 once the hundredth is recorded. */
  method ScanFiles(files: seq<Visited>, searchPattern: string, caseSensitive: bool)
    returns (results: seq<string>, capped: bool)
    ensures !capped ==> results == FileHits(files, searchPattern, caseSensitive) && |results| < MaxHits
    ensures capped ==>
      |results| == MaxHits && |FileHits(files, searchPattern, caseSensitive)| >= MaxHits &&
      results == FileHits(files, searchPattern, caseSensitive)[..MaxHits]
  {
    results := [];
    var fi := 0;
    while fi < |files|
      invariant 0 <= fi <= |files|
      invariant results == FileHits(files[..fi], searchPattern, caseSensitive)
      invariant |results| < MaxHits
    {
      var file := files[fi];
      assert files[..fi + 1][..fi] == files[..fi];
      if file.lines.Some? {
        var stop;
        results, stop := ScanLines(file.path, file.lines.value, searchPattern, caseSensitive, results);
        if stop.Some? {
          HitsSoFar(files, fi, stop.value, searchPattern, caseSensitive);
          return results, true;
        }
      } else {
        AppendEmpty(results);
      }
      fi := fi + 1;
    }
    assert files[..fi] == files;
    capped := false;
  }

  /** grep_search: the scan, returning as soon as the hundredth hit is recorded. */
  method GrepSearch(pattern: string, path: string, caseSensitive: bool, exclude: set<string>, root: RootKind)
    returns (output: string)
    ensures output == GrepOutput(pattern, path, caseSensitive, exclude, root)
  {
    if root.Missing? {
      return MissingPath(path);
    }
    var searchPattern := if caseSensitive then pattern else Lower(pattern);
    var files := Reached(path, root, exclude);
    assert GrepOutput(pattern, path, caseSensitive, exclude, root)
      == GrepReply(FileHits(files, searchPattern, caseSensitive));
    var results, capped := ScanFiles(files, searchPattern, caseSensitive);
    if capped {
      results := results + [HitsTruncated];
      return Join(results, "\n");
    }
    if |results| == 0 {
      return NoMatches;
    }
    return Join(results, "\n");
  }

  /** The cap: never more than 100 hit lines, and the marker exactly when the
      hundredth hit is reached. */
  lemma GrepCap(hits: seq<string>)
    ensures |hits| >= MaxHits ==>
      Contains(GrepReply(hits), HitsTruncated) && forall k :: 0 <= k < MaxHits ==> Contains(GrepReply(hits), hits[k])
    ensures 0 < |hits| < MaxHits ==> forall k :: 0 <= k < |hits| ==> Contains(GrepReply(hits), hits[k])
    ensures |hits| == 0 ==> GrepReply(hits) == NoMatches
  {
    if |hits| >= MaxHits {
      JoinShowsFirst(hits, MaxHits, HitsTruncated, "\n");
    } else if |hits| > 0 {
      JoinShowsAll(hits, "\n");
    }
  }

  /** For files whose paths and lines hold no stray newline, the lines of
      grep_search's reply are the hit lines themselves: all of them below 100,
      else the first 100 and the marker. */
  lemma GrepOutputLines(pattern: string, path: string, caseSensitive: bool, exclude: set<string>, root: RootKind)
    requires !root.Missing? && PlainFiles(Reached(path, root, exclude))
    ensures var hits := FileHits(Reached(path, root, exclude), SearchPattern(pattern, caseSensitive), caseSensitive);
      var reply := GrepOutput(pattern, path, caseSensitive, exclude, root);
      (|hits| == 0 ==> reply == NoMatches) &&
      (0 < |hits| < MaxHits ==> Split(reply, '\n') == hits) &&
      (|hits| >= MaxHits ==> Split(reply, '\n') == hits[..MaxHits] + [HitsTruncated])
  {
    FileHitsOneLine(Reached(path, root, exclude), SearchPattern(pattern, caseSensitive), caseSensitive);
    GrepReplyLines(FileHits(Reached(path, root, exclude), SearchPattern(pattern, caseSensitive), caseSensitive));
  }

  /** A root that does not exist gets the same message from both tools. */
  lemma MissingRootMessage(pattern: string, path: string, caseSensitive: bool, exclude: set<string>)
    ensures GrepOutput(pattern, path, caseSensitive, exclude, Missing) == MissingPath(path)
    ensures GlobOutput(path, Missing, Ok([])) == MissingPath(path)
  {
  }

  /** A plain file as the root is walked as nothing: no matches. */
  lemma PlainFileRootHasNoMatches(pattern: string, path: string, caseSensitive: bool, exclude: set<string>)
    ensures GrepOutput(pattern, path, caseSensitive, exclude, PlainFile) == NoMatches
  {
  }

  // ---------------------------------------------------------------------------
  // glob_search

  function MoreFiles(extra: nat): string {
    "... (" + NatToString(extra) + " more files)"
  }

  /** The text glob_search returns, given what `root_path.glob(pattern)`
      produced, or the text of what it raised. */
  function GlobOutput(path: string, root: RootKind, matches: Result<seq<string>, string>): string {
    if root.Missing? then MissingPath(path)
    else if matches.Err? then "Error during glob: " + matches.error
    else
      var ms := matches.value;
      if |ms| == 0 then NoFiles
      else if |ms| > MaxHits then Join(ms[..MaxHits] + [MoreFiles(|ms| - MaxHits)], "\n")
      else Join(ms, "\n")
  }

  /** glob_search. */
  method GlobSearch(path: string, root: RootKind, matches: Result<seq<string>, string>)
    returns (output: string)
    ensures output == GlobOutput(path, root, matches)
  {
    if root.Missing? {
      return MissingPath(path);
    }
    if matches.Err? {
      return "Error during glob: " + matches.error;
    }
    var results := matches.value;
    if |results| == 0 {
      return NoFiles;
    }
    var resultStrs := if |results| <= MaxHits then results else results[..MaxHits];
    if |results| > MaxHits {
      resultStrs := resultStrs + [MoreFiles(|results| - MaxHits)];
    }
    output := Join(resultStrs, "\n");
  }

  /** A listing of up to 100 paths is the paths joined by newlines. */
  lemma GlobListing(path: string, root: RootKind, ms: seq<string>)
    requires !root.Missing? && 0 < |ms| <= MaxHits
    ensures GlobOutput(path, root, Ok(ms)) == Join(ms, "\n")
  {
  }

  /** A longer listing is the first 100 paths and a count line, joined by newlines. */
  lemma GlobCapListing(path: string, root: RootKind, ms: seq<string>)
    requires !root.Missing? && |ms| > MaxHits
    ensures GlobOutput(path, root, Ok(ms)) == Join(ms[..MaxHits] + [MoreFiles(|ms| - MaxHits)], "\n")
  {
  }

  /** Up to 100 paths are all listed. */
  lemma GlobListsAll(path: string, root: RootKind, ms: seq<string>)
    requires !root.Missing? && 0 < |ms| <= MaxHits
    ensures forall k :: 0 <= k < |ms| ==> Contains(GlobOutput(path, root, Ok(ms)), ms[k])
  {
    GlobListing(path, root, ms);
    JoinShowsAll(ms, "\n");
  }

  /** Beyond 100 paths the first 100 are listed, followed by the line that
      counts the ones left out. */
  lemma GlobCap(path: string, root: RootKind, ms: seq<string>)
    requires !root.Missing? && |ms| > MaxHits
    ensures forall k :: 0 <= k < MaxHits ==> Contains(GlobOutput(path, root, Ok(ms)), ms[k])
    ensures Contains(GlobOutput(path, root, Ok(ms)), MoreFiles(|ms| - MaxHits))
  {
    GlobCapListing(path, root, ms);
    JoinShowsFirst(ms, MaxHits, MoreFiles(|ms| - MaxHits), "\n");
  }
}
