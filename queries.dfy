/** What the layer makes of the external tool's textual answers: the output
    parsers and the selection rules built on them (GitAPI.java). Each is a
    function of the oracle; the loops the Java code runs over the lines are
    methods of GitApi.GitApi, proved equal to these functions. */
module Queries {
  import opened Results
  import opened Text
  import opened Seqs
  import opened GitTool

  // ---------------------------------------------------------------------
  // firstLine
  // ---------------------------------------------------------------------

  const MultipleLines := "Result has multiple lines"

  /** firstLine(result): null for empty output, the line for one line, and a
      `GitException` as soon as a second line exists. */
  function FirstLine(result: string): (r: Result<Option<string>>)
    ensures r == Ok(None) <==> result == []
    ensures r.Ok? && r.value.Some? ==> NoLineBreak(r.value.value) && StartsWith(result, r.value.value)
    ensures r.Err? ==> r.error == GitException(MultipleLines)
  {
    var ls := Lines(result);
    if |ls| == 0 then Ok(None)
    else if |ls| == 1 then Ok(Some(ls[0]))
    else Err(GitException(MultipleLines))
  }

  /** One line, with or without its terminator, is returned as it is. */
  lemma FirstLineOfOneLine(l: string)
    requires NoLineBreak(l)
    ensures FirstLine(l + "\n") == Ok(Some(l))
    ensures l != [] ==> FirstLine(l) == Ok(Some(l))
  {
    LinesUnlines([l]);
    assert Unlines([l]) == l + "\n";
    if l != [] {
      LinesOfUnterminated(l);
    }
  }

  /** Anything after the first line, even one empty line, is an error. */
  lemma FirstLineRejectsSecondLine(first: string, rest: string)
    requires NoLineBreak(first) && rest != []
    ensures FirstLine(first + "\n" + rest) == Err(GitException(MultipleLines))
  {
    ReadLineOfTerminated(first, rest);
    assert Lines(first + "\n" + rest) == [first] + Lines(rest);
  }

  // ---------------------------------------------------------------------
  // revParse
  // ---------------------------------------------------------------------

  function RevParseArgs(revName: string): seq<string> { ["rev-parse", revName] }

  /** revParse(revName): the trimmed single output line as an object id. */
  function RevParse(tool: Tool, revName: string): (r: Result<ObjectId>)
  {
    match Launch(tool, RevParseArgs(revName))
    case Err(e) => Err(e)
    case Ok(out) =>
      match FirstLine(out)
      case Err(e) => Err(e)
      case Ok(None) => Err(NullPointer)
      case Ok(Some(line)) =>
        match tool.parseObjectId(Trim(line))
        case None => Err(InvalidObjectId(Trim(line)))
        case Some(id) => Ok(id)
  }

  /** One line is parsed after trimming; two or more lines are ambiguous;
      empty output dereferences the `null` that firstLine returned. */
  lemma RevParseCases(tool: Tool, revName: string, first: string, rest: string)
    requires NoLineBreak(first)
    ensures Launch(tool, RevParseArgs(revName)) == Ok(first + "\n") ==>
              RevParse(tool, revName) == match tool.parseObjectId(Trim(first))
                                         case None => Err(InvalidObjectId(Trim(first)))
                                         case Some(id) => Ok(id)
    ensures rest != [] && Launch(tool, RevParseArgs(revName)) == Ok(first + "\n" + rest) ==>
              RevParse(tool, revName) == Err(GitException(MultipleLines))
    ensures Launch(tool, RevParseArgs(revName)) == Ok("") ==> RevParse(tool, revName) == Err(NullPointer)
  {
    FirstLineOfOneLine(first);
    if rest != [] {
      FirstLineRejectsSecondLine(first, rest);
    }
  }

  // ---------------------------------------------------------------------
  // lsTree and getSubmodules
  // ---------------------------------------------------------------------

  /** One `ls-tree` line: the first four fields of `line.split("\\s+")`;
      fewer than four fields index past the end of the array. */
  function ParseIndexEntry(line: string): (r: Result<IndexEntry>)
    ensures r.Ok? <==> |SplitOnWhitespace(line)| >= 4
    ensures r.Err? ==> r.error == IndexOutOfBounds
    ensures r.Ok? ==> [r.value.mode, r.value.kind, r.value.objectName, r.value.file] == SplitOnWhitespace(line)[..4]
  {
    var fields := SplitOnWhitespace(line);
    if |fields| < 4 then Err(IndexOutOfBounds)
    else Ok(IndexEntry(fields[0], fields[1], fields[2], fields[3]))
  }

  /** The entries of the given `ls-tree` lines, one per line and in order,
      or the failure of the first line that cannot be parsed. */
  function ParseLsTree(lines: seq<string>): (r: Result<seq<IndexEntry>>)
    ensures r.Ok? ==> |r.value| == |lines|
    ensures r.Ok? ==> forall i :: 0 <= i < |lines| ==> ParseIndexEntry(lines[i]) == Ok(r.value[i])
    ensures r.Err? <==> exists i :: 0 <= i < |lines| && ParseIndexEntry(lines[i]).Err?
  {
    if lines == [] then Ok([])
    else
      match ParseIndexEntry(lines[0])
      case Err(e) => Err(e)
      case Ok(entry) =>
        var rest := ParseLsTree(lines[1..]);
        assert forall i :: 0 < i < |lines| ==> lines[i] == lines[1..][i - 1];
        Prepend([entry], rest)
  }

  function LsTreeArgs(treeIsh: string): seq<string> { ["ls-tree", treeIsh] }

  /** lsTree(treeIsh). */
  function LsTree(tool: Tool, treeIsh: string): (r: Result<seq<IndexEntry>>)
  {
    match Launch(tool, LsTreeArgs(treeIsh))
    case Err(e) => Err(e)
    case Ok(out) => ParseLsTree(Lines(out))
  }

  /** The line `git ls-tree` prints for an entry. */
  function FormatIndexEntry(e: IndexEntry): string
  {
    e.mode + " " + e.kind + " " + e.objectName + "\t" + e.file
  }

  function FormatLsTree(es: seq<IndexEntry>): (ls: seq<string>)
    ensures |ls| == |es|
    ensures forall i :: 0 <= i < |es| ==> ls[i] == FormatIndexEntry(es[i])
  {
    if es == [] then [] else [FormatIndexEntry(es[0])] + FormatLsTree(es[1..])
  }

  /** An entry whose four fields are non-empty and free of whitespace. */
  predicate IsPlainEntry(e: IndexEntry)
  {
    && e.mode != [] && NoRegexSpace(e.mode)
    && e.kind != [] && NoRegexSpace(e.kind)
    && e.objectName != [] && NoRegexSpace(e.objectName)
    && e.file != [] && NoRegexSpace(e.file)
  }

  lemma FieldsOfFormattedEntry(e: IndexEntry, tail: string)
    requires IsPlainEntry(e)
    ensures Tokens(FormatIndexEntry(e) + tail) == [e.mode, e.kind, e.objectName] + Tokens(e.file + tail)
  {
    var t2 := e.objectName + ['\t'] + (e.file + tail);
    var t1 := e.kind + [' '] + t2;
    FormattedEntryShape(e, tail);
    TokensOfWord(e.mode, ' ', t1);
    TokensOfWord(e.kind, ' ', t2);
    TokensOfWord(e.objectName, '\t', e.file + tail);
  }

  lemma FormattedEntryShape(e: IndexEntry, tail: string)
    ensures FormatIndexEntry(e) + tail
         == e.mode + [' '] + (e.kind + [' '] + (e.objectName + ['\t'] + (e.file + tail)))
  {
    var m, k, o, f := e.mode, e.kind, e.objectName, e.file;
    calc {
      FormatIndexEntry(e) + tail;
      m + [' '] + k + [' '] + o + ['\t'] + f + tail;
      { assert m + [' '] + k + [' '] + o + ['\t'] + f + tail == (m + [' '] + k + [' '] + o + ['\t']) + (f + tail); }
      (m + [' '] + k + [' '] + o + ['\t']) + (f + tail);
      { assert m + [' '] + k + [' '] + o + ['\t'] == (m + [' '] + k + [' ']) + (o + ['\t']); }
      (m + [' '] + k + [' ']) + (o + ['\t'] + (f + tail));
      { assert m + [' '] + k + [' '] == m + [' '] + (k + [' ']); }
      m + [' '] + (k + [' '] + (o + ['\t'] + (f + tail)));
    }
  }

  /** Parsing undoes formatting for every plain entry. */
  lemma ParseFormattedEntry(e: IndexEntry)
    requires IsPlainEntry(e)
    ensures ParseIndexEntry(FormatIndexEntry(e)) == Ok(e)
  {
    FieldsOfFormattedEntry(e, "");
    assert FormatIndexEntry(e) + "" == FormatIndexEntry(e);
    assert e.file + "" == e.file;
    TokensOfLastWord(e.file);
  }

  /** A path that contains whitespace keeps only its first word: whatever
      follows the first blank of the path is lost. */
  lemma ParseTruncatesPathAtWhitespace(e: IndexEntry, sep: char, more: string)
    requires IsPlainEntry(e) && IsRegexSpace(sep)
    ensures ParseIndexEntry(FormatIndexEntry(e) + [sep] + more) == Ok(e)
  {
    FieldsOfFormattedEntry(e, [sep] + more);
    assert FormatIndexEntry(e) + [sep] + more == FormatIndexEntry(e) + ([sep] + more);
    assert e.file + ([sep] + more) == e.file + [sep] + more;
    TokensOfWord(e.file, sep, more);
  }

  lemma {:induction false} PlainEntryHasNoLineBreak(e: IndexEntry)
    requires IsPlainEntry(e)
    ensures NoLineBreak(FormatIndexEntry(e))
  {
    var s := FormatIndexEntry(e);
    forall i | 0 <= i < |s| ensures !IsLineBreak(s[i]) {
      var a := e.mode + " " + e.kind + " " + e.objectName + "\t";
      if i < |e.mode| {
        assert s[i] == e.mode[i];
      } else if i < |e.mode| + 1 {
        assert s[i] == ' ';
      } else if i < |e.mode| + 1 + |e.kind| {
        assert s[i] == e.kind[i - |e.mode| - 1];
      } else if i < |e.mode| + 2 + |e.kind| {
        assert s[i] == ' ';
      } else if i < |e.mode| + 2 + |e.kind| + |e.objectName| {
        assert s[i] == e.objectName[i - |e.mode| - 2 - |e.kind|];
      } else if i < |a| {
        assert s[i] == '\t';
      } else {
        assert s[i] == e.file[i - |a|];
      }
    }
  }

  /** Listing plain entries and reading the listing back gives the entries
      again, one per line and in order. */
  lemma {:induction false} LsTreeRoundTrip(es: seq<IndexEntry>)
    requires forall i :: 0 <= i < |es| ==> IsPlainEntry(es[i])
    ensures ParseLsTree(Lines(Unlines(FormatLsTree(es)))) == Ok(es)
  {
    var ls := FormatLsTree(es);
    forall i | 0 <= i < |ls| ensures NoLineBreak(ls[i]) {
      PlainEntryHasNoLineBreak(es[i]);
    }
    LinesUnlines(ls);
    ParseListing(es);
  }

  lemma {:induction false} ParseListing(es: seq<IndexEntry>)
    requires forall i :: 0 <= i < |es| ==> IsPlainEntry(es[i])
    ensures ParseLsTree(FormatLsTree(es)) == Ok(es)
  {
    if es != [] {
      ParseFormattedEntry(es[0]);
      ParseListing(es[1..]);
      assert FormatLsTree(es)[1..] == FormatLsTree(es[1..]);
      assert [es[0]] + es[1..] == es;
    }
  }

  /** Mode 160000 marks a gitlink: an entry that is a submodule. */
  const SubmoduleMode := "160000"

  predicate IsSubmodule(e: IndexEntry) { e.mode == SubmoduleMode }

  /** getSubmodules(treeIsh): the `ls-tree` entries with the gitlink mode. */
  function Submodules(tool: Tool, treeIsh: string): (r: Result<seq<IndexEntry>>)
  {
    match LsTree(tool, treeIsh)
    case Err(e) => Err(e)
    case Ok(es) => Ok(Filter(es, IsSubmodule))
  }

  /** getSubmodules keeps exactly the gitlink entries, each as often as it
      was listed, in their original order, and removes nothing else. */
  lemma SubmodulesAreTheGitlinks(tool: Tool, treeIsh: string)
    ensures Submodules(tool, treeIsh).Err? <==> LsTree(tool, treeIsh).Err?
    ensures Submodules(tool, treeIsh).Ok? ==>
              var es := LsTree(tool, treeIsh).value;
              var subs := Submodules(tool, treeIsh).value;
              && (forall e :: multiset(subs)[e] == if e.mode == SubmoduleMode then multiset(es)[e] else 0)
              && IsSubsequence(subs, es)
  {
    if LsTree(tool, treeIsh).Ok? {
      FilterCounts(LsTree(tool, treeIsh).value, IsSubmodule);
      FilterIsSubsequence(LsTree(tool, treeIsh).value, IsSubmodule);
    }
  }

  /** A gitlink line is classified as a submodule and a blob line is not. */
  lemma ClassifiesGitlinks(sha: string, path: string)
    requires sha != [] && NoRegexSpace(sha) && path != [] && NoRegexSpace(path)
    ensures var r := ParseIndexEntry(SubmoduleMode + " commit " + sha + "\t" + path);
            r.Ok? && IsSubmodule(r.value) && r.value.file == path
    ensures var r := ParseIndexEntry("100644 blob " + sha + "\t" + path);
            r.Ok? && !IsSubmodule(r.value) && r.value.file == path
  {
    GitlinkLine(sha, path);
    BlobLine(sha, path);
  }

  lemma GitlinkLine(sha: string, path: string)
    requires sha != [] && NoRegexSpace(sha) && path != [] && NoRegexSpace(path)
    ensures ParseIndexEntry(SubmoduleMode + " commit " + sha + "\t" + path) == Ok(IndexEntry(SubmoduleMode, "commit", sha, path))
  {
    assert NoRegexSpace(SubmoduleMode) && NoRegexSpace("commit");
    ParsesAs(SubmoduleMode, "commit", sha, path);
    assert " commit " == " " + "commit" + " ";
    assert SubmoduleMode + " commit " + sha == SubmoduleMode + " " + "commit" + " " + sha;
  }

  lemma BlobLine(sha: string, path: string)
    requires sha != [] && NoRegexSpace(sha) && path != [] && NoRegexSpace(path)
    ensures ParseIndexEntry("100644 blob " + sha + "\t" + path) == Ok(IndexEntry("100644", "blob", sha, path))
  {
    assert NoRegexSpace("100644") && NoRegexSpace("blob");
    ParsesAs("100644", "blob", sha, path);
    assert " blob " == " " + "blob" + " ";
    assert "100644 blob " + sha == "100644" + " " + "blob" + " " + sha;
  }

  lemma ParsesAs(mode: string, kind: string, sha: string, path: string)
    requires mode != [] && NoRegexSpace(mode) && kind != [] && NoRegexSpace(kind)
    requires sha != [] && NoRegexSpace(sha) && path != [] && NoRegexSpace(path)
    ensures ParseIndexEntry(mode + " " + kind + " " + sha + "\t" + path) == Ok(IndexEntry(mode, kind, sha, path))
  {
    ParseFormattedEntry(IndexEntry(mode, kind, sha, path));
  }

  // ---------------------------------------------------------------------
  // revList
  // ---------------------------------------------------------------------

  /** Each line is one object id, unchanged and in the order the tool printed them. */
  function ParseObjectIds(tool: Tool, lines: seq<string>): (r: Result<seq<ObjectId>>)
    ensures r.Ok? ==> |r.value| == |lines|
    ensures r.Ok? ==> forall i :: 0 <= i < |lines| ==> tool.parseObjectId(lines[i]) == Some(r.value[i])
    ensures r.Err? <==> exists i :: 0 <= i < |lines| && tool.parseObjectId(lines[i]).None?
  {
    if lines == [] then Ok([])
    else
      match tool.parseObjectId(lines[0])
      case None => Err(InvalidObjectId(lines[0]))
      case Some(id) =>
        var rest := ParseObjectIds(tool, lines[1..]);
        assert forall i :: 0 < i < |lines| ==> lines[i] == lines[1..][i - 1];
        Prepend([id], rest)
  }

  function RevListArgs(extraArgs: seq<string>): seq<string> { ["rev-list"] + extraArgs }

  /** revList(extraArgs...). */
  function RevList(tool: Tool, extraArgs: seq<string>): Result<seq<ObjectId>>
  {
    match Launch(tool, RevListArgs(extraArgs))
    case Err(e) => Err(e)
    case Ok(out) => ParseObjectIds(tool, Lines(out))
  }

  // ---------------------------------------------------------------------
  // parseBranches
  // ---------------------------------------------------------------------

  /** After its two-character marker, a line names a branch unless it is the
      detached-HEAD marker "(...)" or an alias "a -> b". */
  predicate IsBranchName(name: string)
  {
    !StartsWith(name, "(") && !Contains(name, " -> ")
  }

  /** The loop of parseBranches over the given lines, with `resolve` in the
      place of revParse: each line loses its two-character marker, and a
      line that names a branch is reported with the commit its name
      resolves to. */
  function ParseBranchesWith(resolve: string -> Result<ObjectId>, lines: seq<string>): Result<seq<Branch>>
  {
    if lines == [] then Ok([])
    else if |lines[0]| < 2 then Err(IndexOutOfBounds)
    else
      var name := lines[0][2..];
      if !IsBranchName(name) then ParseBranchesWith(resolve, lines[1..])
      else
        match resolve(name)
        case Err(e) => Err(e)
        case Ok(id) => Prepend([Branch(Some(name), id)], ParseBranchesWith(resolve, lines[1..]))
  }

  /** parseBranches on the given lines. */
  function ParseBranches(tool: Tool, lines: seq<string>): Result<seq<Branch>>
  {
    ParseBranchesWith(n => RevParse(tool, n), lines)
  }

  predicate AllMarked(lines: seq<string>) { forall i :: 0 <= i < |lines| ==> |lines[i]| >= 2 }

  function StripMarkers(lines: seq<string>): (names: seq<string>)
    requires AllMarked(lines)
    ensures |names| == |lines|
    ensures forall i :: 0 <= i < |lines| ==> names[i] == lines[i][2..]
  {
    if lines == [] then [] else [lines[0][2..]] + StripMarkers(lines[1..])
  }

  /** The names parseBranches reports: the marker-stripped lines that name a branch. */
  function BranchNames(lines: seq<string>): seq<string>
    requires AllMarked(lines)
  {
    Filter(StripMarkers(lines), IsBranchName)
  }

  /** The names of a non-empty listing: its first line's, then the rest's. */
  lemma BranchNamesCons(lines: seq<string>)
    requires lines != [] && AllMarked(lines)
    ensures BranchNames(lines) == (if IsBranchName(lines[0][2..]) then [lines[0][2..]] else []) + BranchNames(lines[1..])
  {
    assert StripMarkers(lines)[1..] == StripMarkers(lines[1..]);
    assert StripMarkers(lines)[0] == lines[0][2..];
  }

  lemma MarkedCons(lines: seq<string>)
    requires lines != [] && |lines[0]| >= 2 && AllMarked(lines[1..])
    ensures AllMarked(lines)
  {
    forall i | 0 < i < |lines| ensures |lines[i]| >= 2 {
      assert lines[i] == lines[1..][i - 1];
    }
  }

  /** `bs` reports the names `ns`, one branch per name and in order, each at
      the commit its name resolves to. */
  predicate Reports(resolve: string -> Result<ObjectId>, bs: seq<Branch>, ns: seq<string>)
  {
    |bs| == |ns| && forall i :: 0 <= i < |bs| ==> bs[i].name == Some(ns[i]) && resolve(ns[i]) == Ok(bs[i].id)
  }

  lemma ReportsCons(resolve: string -> Result<ObjectId>, name: string, id: ObjectId, bs: seq<Branch>, ns: seq<string>)
    requires resolve(name) == Ok(id) && Reports(resolve, bs, ns)
    ensures Reports(resolve, [Branch(Some(name), id)] + bs, [name] + ns)
  {
    var bs' := [Branch(Some(name), id)] + bs;
    var ns' := [name] + ns;
    forall i | 0 < i < |bs'| ensures bs'[i].name == Some(ns'[i]) && resolve(ns'[i]) == Ok(bs'[i].id) {
      assert bs'[i] == bs[i - 1] && ns'[i] == ns[i - 1];
    }
  }

  /** One step of the loop on a listing it parses. */
  lemma ParseBranchesStep(resolve: string -> Result<ObjectId>, lines: seq<string>)
    requires lines != [] && ParseBranchesWith(resolve, lines).Ok?
    ensures |lines[0]| >= 2 && ParseBranchesWith(resolve, lines[1..]).Ok?
    ensures var name := lines[0][2..];
            IsBranchName(name) ==>
              && resolve(name).Ok?
              && ParseBranchesWith(resolve, lines).value == [Branch(Some(name), resolve(name).value)] + ParseBranchesWith(resolve, lines[1..]).value
    ensures !IsBranchName(lines[0][2..]) ==> ParseBranchesWith(resolve, lines).value == ParseBranchesWith(resolve, lines[1..]).value
  {
  }

  lemma {:induction false} ReportsNamesWith(resolve: string -> Result<ObjectId>, lines: seq<string>)
    requires ParseBranchesWith(resolve, lines).Ok?
    ensures AllMarked(lines)
    ensures Reports(resolve, ParseBranchesWith(resolve, lines).value, BranchNames(lines))
  {
    if lines != [] {
      var name := lines[0][2..];
      var tail := ParseBranchesWith(resolve, lines[1..]);
      ParseBranchesStep(resolve, lines);
      ReportsNamesWith(resolve, lines[1..]);
      MarkedCons(lines);
      BranchNamesCons(lines);
      if IsBranchName(name) {
        ReportsCons(resolve, name, resolve(name).value, tail.value, BranchNames(lines[1..]));
      }
    }
  }

  /** A successful parse means every line had its marker; it reports one
      branch per branch-naming line, in input order, each at the commit its
      name resolves to. */
  lemma ParseBranchesReportsNames(tool: Tool, lines: seq<string>)
    requires ParseBranches(tool, lines).Ok?
    ensures AllMarked(lines)
    ensures var bs := ParseBranches(tool, lines).value;
            && |bs| == |BranchNames(lines)|
            && forall i :: 0 <= i < |bs| ==>
                 bs[i].name == Some(BranchNames(lines)[i]) && RevParse(tool, BranchNames(lines)[i]) == Ok(bs[i].id)
  {
    ReportsNamesWith(n => RevParse(tool, n), lines);
  }

  lemma {:induction false} SucceedsWith(resolve: string -> Result<ObjectId>, lines: seq<string>)
    requires AllMarked(lines)
    requires forall n :: n in BranchNames(lines) ==> resolve(n).Ok?
    ensures ParseBranchesWith(resolve, lines).Ok?
  {
    if lines != [] {
      BranchNamesCons(lines);
      assert AllMarked(lines[1..]) by {
        forall i | 0 <= i < |lines| - 1 ensures |lines[1..][i]| >= 2 {
          assert lines[1..][i] == lines[i + 1];
        }
      }
      SucceedsWith(resolve, lines[1..]);
    }
  }

  /** Conversely, when every line has its marker and every branch name
      resolves, parsing succeeds. */
  lemma ParseBranchesSucceeds(tool: Tool, lines: seq<string>)
    requires AllMarked(lines)
    requires forall n :: n in BranchNames(lines) ==> RevParse(tool, n).Ok?
    ensures ParseBranches(tool, lines).Ok?
  {
    SucceedsWith(n => RevParse(tool, n), lines);
  }

  function BranchContainsArgs(revspec: string): seq<string> { ["branch", "-a", "--contains", revspec] }

  /** getBranchesContaining(revspec). */
  function BranchesContaining(tool: Tool, revspec: string): Result<seq<Branch>>
  {
    match Launch(tool, BranchContainsArgs(revspec))
    case Err(e) => Err(e)
    case Ok(out) => ParseBranches(tool, Lines(out))
  }

  // ---------------------------------------------------------------------
  // getTagNames
  // ---------------------------------------------------------------------

  const TagNamesError := "Error retrieving tag names"

  function TagListArgs(pattern: string): seq<string> { ["tag", "-l", pattern] }

  /** getTagNames(pattern): the set of listed lines; every failure becomes
      one `GitException`. */
  function TagNames(tool: Tool, pattern: string): (r: Result<set<string>>)
    ensures r.Err? <==> Launch(tool, TagListArgs(pattern)).Err?
    ensures r.Err? ==> r.error == GitException(TagNamesError)
    ensures r.Ok? ==> forall t :: t in r.value <==> t in Lines(Launch(tool, TagListArgs(pattern)).value)
  {
    match Launch(tool, TagListArgs(pattern))
    case Err(_) => Err(GitException(TagNamesError))
    case Ok(out) => Ok(set t | t in Lines(out))
  }

  // ---------------------------------------------------------------------
  // getDefaultRemote
  // ---------------------------------------------------------------------

  /** Constants.DEFAULT_REMOTE_NAME, used by getDefaultRemote(). */
  const DefaultRemoteName := "origin"

  const NoRemotes := "No remotes found!"

  /** The selection rule: the preferred remote when it is listed, otherwise the first one listed. */
  function ChooseRemote(remotes: seq<string>, preferred: string): (r: Result<string>)
    ensures r.Err? <==> remotes == []
    ensures r.Err? ==> r.error == GitException(NoRemotes)
    ensures r.Ok? ==> r.value in remotes
    ensures r.Ok? && r.value != preferred ==> preferred !in remotes && r.value == remotes[0]
  {
    if preferred in remotes then Ok(preferred)
    else if |remotes| >= 1 then Ok(remotes[0])
    else Err(GitException(NoRemotes))
  }

  function RemoteArgs(): seq<string> { ["remote"] }

  /** getDefaultRemote(preferred). */
  function DefaultRemote(tool: Tool, preferred: string): (r: Result<string>)
  {
    match Launch(tool, RemoteArgs())
    case Err(e) => Err(e)
    case Ok(out) => ChooseRemote(Lines(out), preferred)
  }

  // ---------------------------------------------------------------------
  // isBareRepository
  // ---------------------------------------------------------------------

  /** "" asks about the workspace's own repository; any other value, `null`
      included, is passed on as `--git-dir=`. */
  function IsBareArgs(gitDir: Option<string>): seq<string>
  {
    if gitDir == Some("") then ["rev-parse", "--is-bare-repository"]
    else ["--git-dir=" + JavaString(gitDir), "rev-parse", "--is-bare-repository"]
  }

  /** isBareRepository(gitDir): non-bare exactly when the single output line
      trims to "false"; any other line, even garbage, reads as bare. */
  function IsBareRepository(tool: Tool, gitDir: Option<string>): (r: Result<bool>)
    ensures r == Ok(false) ==> Launch(tool, IsBareArgs(gitDir)).Ok? &&
                               Lines(Launch(tool, IsBareArgs(gitDir)).value) != [] &&
                               Trim(Lines(Launch(tool, IsBareArgs(gitDir)).value)[0]) == "false"
    ensures r.Err? && !r.error.IsGitException() ==> r.error == NullPointer && Launch(tool, IsBareArgs(gitDir)) == Ok("")
  {
    match Launch(tool, IsBareArgs(gitDir))
    case Err(e) => Err(e)
    case Ok(out) =>
      match FirstLine(out)
      case Err(e) => Err(e)
      case Ok(None) => Err(NullPointer)
      case Ok(Some(line)) => Ok(Trim(line) != "false")
  }

  /** The single answer line is read through `trim()`: exactly "false" means non-bare. */
  lemma IsBareReadsAnswer(tool: Tool, gitDir: Option<string>, answer: string)
    requires NoLineBreak(answer)
    requires Launch(tool, IsBareArgs(gitDir)) == Ok(answer + "\n")
    ensures IsBareRepository(tool, gitDir) == Ok(Trim(answer) != "false")
  {
    var out := answer + "\n";
    FirstLineOfOneLine(answer);
    assert FirstLine(out) == Ok(Some(answer));
  }

  // ---------------------------------------------------------------------
  // mergeBase
  // ---------------------------------------------------------------------

  const MergeBaseError := "Error parsing merge base"

  function MergeBaseArgs(id1: ObjectId, id2: ObjectId): seq<string> { ["merge-base", id1.name, id2.name] }

  /** mergeBase(id1, id2): a failed command means "no common ancestor" and
      gives null; otherwise the first output line is the id, and only an
      unparseable first line is an error. */
  function MergeBase(tool: Tool, id1: ObjectId, id2: ObjectId): (r: Result<Option<ObjectId>>)
    ensures var out := Launch(tool, MergeBaseArgs(id1, id2));
            out.Err? || (out.Ok? && Lines(out.value) == []) ==> r == Ok(None)
    ensures var out := Launch(tool, MergeBaseArgs(id1, id2));
            out.Ok? && Lines(out.value) != [] && tool.parseObjectId(Lines(out.value)[0]).Some? ==>
              r == Ok(tool.parseObjectId(Lines(out.value)[0]))
    ensures var out := Launch(tool, MergeBaseArgs(id1, id2));
            r.Err? <==> out.Ok? && Lines(out.value) != [] && tool.parseObjectId(Lines(out.value)[0]).None?
    ensures r.Err? ==> r.error == GitException(MergeBaseError)
  {
    match Launch(tool, MergeBaseArgs(id1, id2))
    case Err(_) => Ok(None)
    case Ok(out) =>
      if out == [] then Ok(None)
      else
        LinesHead(out);
        match tool.parseObjectId(ReadLine(out).0)
        case None => Err(GitException(MergeBaseError))
        case Some(id) => Ok(Some(id))
  }

  // ---------------------------------------------------------------------
  // getTagsOnCommit
  // ---------------------------------------------------------------------

  /** getTagsOnCommit(revName): the tags whose id is the one `revName`
      resolves to (none when it resolves to nothing), in the library's order. */
  function TagsOnCommit(tool: Tool, delegateBound: bool, revName: string): (r: Result<seq<Tag>>)
    ensures r.Ok? <==> VerifyGitRepository(tool, delegateBound).Pass? && tool.resolve(revName).Ok?
    ensures VerifyGitRepository(tool, delegateBound).Fail? ==>
              r == Err(VerifyGitRepository(tool, delegateBound).error)
    ensures VerifyGitRepository(tool, delegateBound).Pass? && tool.resolve(revName).Err? ==>
              r == Err(tool.resolve(revName).error)
    ensures r.Ok? && tool.resolve(revName).value.None? ==> r.value == []
    ensures r.Ok? && tool.resolve(revName).value.Some? ==>
              && IsSubsequence(r.value, tool.tags)
              && (forall t :: t in r.value <==> t in tool.tags && t.id == tool.resolve(revName).value.value)
              && forall t :: multiset(r.value)[t] ==
                               if t.id == tool.resolve(revName).value.value then multiset(tool.tags)[t] else 0
  {
    match VerifyGitRepository(tool, delegateBound)
    case Fail(e) => Err(e)
    case Pass =>
      match tool.resolve(revName)
      case Err(e) => Err(e)
      case Ok(None) => Ok([])
      case Ok(Some(commit)) =>
        var onCommit := (t: Tag) => t.id == commit;
        FilterMembers(tool.tags, onCommit);
        FilterIsSubsequence(tool.tags, onCommit);
        FilterCounts(tool.tags, onCommit);
        Ok(Filter(tool.tags, onCommit))
  }
}
