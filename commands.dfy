/** Commands that the layer only launches (GitAPI.java): the argument
    vectors it builds, tag-name normalisation, and what each command's
    outcome becomes. */
module Commands {
  import opened Results
  import opened Text
  import opened GitTool

  // ---------------------------------------------------------------------
  // Tags
  // ---------------------------------------------------------------------

  /** `tagName.replace(' ', '_')`, applied by tag, tagExists and deleteTag alike. */
  function NormalizeTagName(name: string): (r: string)
    ensures |r| == |name| && ' ' !in r
    ensures forall i :: 0 <= i < |name| ==> r[i] == (if name[i] == ' ' then '_' else name[i])
  {
    ReplaceChar(name, ' ', '_')
  }

  /** Two names agree everywhere except where one has a space and the other an underscore. */
  predicate SameUpToSpaces(a: string, b: string)
  {
    |a| == |b| && forall i :: 0 <= i < |a| ==> a[i] == b[i] || (a[i] in " _" && b[i] in " _")
  }

  /** Two names address the same tag exactly when they differ only in spaces
      versus underscores. */
  lemma SameTagName(a: string, b: string)
    ensures NormalizeTagName(a) == NormalizeTagName(b) <==> SameUpToSpaces(a, b)
  {
    var na, nb := NormalizeTagName(a), NormalizeTagName(b);
    if na == nb {
      forall i | 0 <= i < |a| ensures a[i] == b[i] || (a[i] in " _" && b[i] in " _") {
        assert na[i] == nb[i];
      }
    }
    if SameUpToSpaces(a, b) {
      forall i | 0 <= i < |a| ensures na[i] == nb[i] {
        assert a[i] == b[i] || (a[i] in " _" && b[i] in " _");
      }
    }
  }

  /** A normalised name is left as it is. */
  lemma NormalizeTagNameIdempotent(name: string)
    ensures NormalizeTagName(NormalizeTagName(name)) == NormalizeTagName(name)
  {
    var n := NormalizeTagName(name);
    forall i | 0 <= i < |n| ensures NormalizeTagName(n)[i] == n[i] {
      assert n[i] != ' ';
    }
  }

  function TagArgs(name: string, comment: string): seq<string>
  {
    ["tag", "-a", "-f", "-m", comment, NormalizeTagName(name)]
  }

  function TagExistsArgs(name: string): seq<string> { ["tag", "-l", NormalizeTagName(name)] }

  function DeleteTagArgs(name: string): seq<string> { ["tag", "-d", NormalizeTagName(name)] }

  /** tag(tagName, comment): an annotated tag, forced, under the normalised name. */
  function Tag(tool: Tool, name: string, comment: string): (o: Outcome)
    ensures o.Pass? <==> Launch(tool, TagArgs(name, comment)).Ok?
    ensures o.Fail? ==> o.error == GitException("Could not apply tag " + NormalizeTagName(name))
  {
    match Launch(tool, TagArgs(name, comment))
    case Ok(_) => Pass
    case Err(_) => Fail(GitException("Could not apply tag " + NormalizeTagName(name)))
  }

  /** tagExists(tagName): whether `tag -l` lists the normalised name and nothing else. */
  function TagExists(tool: Tool, name: string): (r: Result<bool>)
    ensures r.Ok? <==> Launch(tool, TagExistsArgs(name)).Ok?
    ensures r.Ok? ==> (r.value <==> Trim(Launch(tool, TagExistsArgs(name)).value) == NormalizeTagName(name))
    ensures r.Err? ==> r.error == Launch(tool, TagExistsArgs(name)).error
  {
    match Launch(tool, TagExistsArgs(name))
    case Err(e) => Err(e)
    case Ok(out) => Ok(Trim(out) == NormalizeTagName(name))
  }

  /** deleteTag(tagName). */
  function DeleteTag(tool: Tool, name: string): (o: Outcome)
    ensures o.Pass? <==> Launch(tool, DeleteTagArgs(name)).Ok?
    ensures o.Fail? ==> o.error == GitException("Could not delete tag " + NormalizeTagName(name))
  {
    match Launch(tool, DeleteTagArgs(name))
    case Ok(_) => Pass
    case Err(_) => Fail(GitException("Could not delete tag " + NormalizeTagName(name)))
  }

  /** The three tag operations address one and the same tag name, which has no spaces. */
  lemma TagOperationsAgree(name: string, comment: string)
    ensures TagArgs(name, comment)[5] == TagExistsArgs(name)[2] == DeleteTagArgs(name)[2]
    ensures ' ' !in TagExistsArgs(name)[2]
    ensures TagExistsArgs(name)[2] == TagExistsArgs(NormalizeTagName(name))[2]
  {
    NormalizeTagNameIdempotent(name);
  }

  /** When `tag -l` lists just the normalised name, the tag exists; the test
      then ignores the spaces a caller wrote in its name. */
  lemma TagExistsWhenListed(tool: Tool, name: string)
    requires var n := NormalizeTagName(name); n == [] || (!IsTrimmed(n[0]) && !IsTrimmed(n[|n| - 1]))
    requires Launch(tool, TagExistsArgs(name)) == Ok(NormalizeTagName(name) + "\n")
    ensures TagExists(tool, name) == Ok(true)
  {
    TrimDropsTerminator(NormalizeTagName(name));
  }

  /** Any other listing, or one naming another tag besides, means the tag does not exist. */
  lemma TagExistsNotWhenOthersListed(tool: Tool, name: string, other: string)
    requires var n := NormalizeTagName(name); n != [] && !IsTrimmed(n[0]) && !IsTrimmed(n[|n| - 1])
    requires other != [] && !IsTrimmed(other[0]) && !IsTrimmed(other[|other| - 1])
    requires Launch(tool, TagExistsArgs(name)) == Ok(NormalizeTagName(name) + "\n" + other + "\n")
    ensures TagExists(tool, name) == Ok(false)
  {
    var n := NormalizeTagName(name);
    var s := n + "\n" + other;
    TrimDropsTerminator(s);
    assert s + "\n" == n + "\n" + other + "\n";
    assert |s| > |n|;
  }

  // ---------------------------------------------------------------------
  // fetch, reset, clean
  // ---------------------------------------------------------------------

  /** fetch(repository, refspec): tags always; a refspec only after a repository. */
  function FetchArgs(repository: Option<string>, refspec: Option<string>): (args: seq<string>)
    ensures |args| >= 2 && args[..2] == ["fetch", "-t"]
    ensures repository.None? ==> args == ["fetch", "-t"]
    ensures repository.Some? ==> |args| >= 3 && args[2] == repository.value
    ensures repository.Some? ==> (|args| == 4 <==> refspec.Some?) && (refspec.Some? ==> args[3] == refspec.value)
    ensures |args| <= 4
  {
    ["fetch", "-t"]
      + match repository
        case None => []
        case Some(repo) => [repo] + match refspec case None => [] case Some(spec) => [spec]
  }

  function Fetch(tool: Tool, repository: Option<string>, refspec: Option<string>): Outcome
  {
    Drop(Launch(tool, FetchArgs(repository, refspec)))
  }

  /** fetch(RemoteConfig): its first URL and first fetch ref-spec. */
  function FetchRemote(tool: Tool, remote: RemoteConfig): (o: Outcome)
    ensures remote.uris == [] || remote.fetchRefSpecs == [] ==> o == Fail(IndexOutOfBounds)
    ensures remote.uris != [] && remote.fetchRefSpecs != [] ==>
              o == Fetch(tool, Some(remote.uris[0]), Some(remote.fetchRefSpecs[0]))
  {
    if remote.uris == [] || remote.fetchRefSpecs == [] then Fail(IndexOutOfBounds)
    else Fetch(tool, Some(remote.uris[0]), Some(remote.fetchRefSpecs[0]))
  }

  /** reset(hard); reset() is reset(false). */
  function ResetArgs(hard: bool): (args: seq<string>)
    ensures |args| == if hard then 2 else 1
    ensures args[0] == "reset"
    ensures hard ==> args[1] == "--hard"
  {
    ["reset"] + if hard then ["--hard"] else []
  }

  function Reset(tool: Tool, hard: bool): Outcome
  {
    Drop(Launch(tool, ResetArgs(hard)))
  }

  function CleanArgs(): seq<string> { ["clean", "-dfx"] }

  /** clean(): on a valid repository, a hard reset and then `clean -dfx`;
      each step runs only when the one before it succeeded. */
  function Clean(tool: Tool, delegateBound: bool): (o: Outcome)
    ensures o.Pass? <==> && VerifyGitRepository(tool, delegateBound).Pass?
                         && Launch(tool, ResetArgs(true)).Ok?
                         && Launch(tool, CleanArgs()).Ok?
    ensures VerifyGitRepository(tool, delegateBound).Fail? ==> o == VerifyGitRepository(tool, delegateBound)
  {
    match VerifyGitRepository(tool, delegateBound)
    case Fail(e) => Fail(e)
    case Pass =>
      match Reset(tool, true)
      case Fail(e) => Fail(e)
      case Pass => Drop(Launch(tool, CleanArgs()))
  }

  // ---------------------------------------------------------------------
  // Submodule commands and push
  // ---------------------------------------------------------------------

  function SubmoduleInitArgs(): seq<string> { ["submodule", "init"] }

  function SubmoduleSyncArgs(): seq<string> { ["submodule", "sync"] }

  /** submoduleUpdate(recursive). */
  function SubmoduleUpdateArgs(recursive: bool): (args: seq<string>)
    ensures |args| >= 2 && args[..2] == ["submodule", "update"]
    ensures |args| == if recursive then 4 else 2
    ensures recursive ==> args[2..] == ["--init", "--recursive"]
  {
    ["submodule", "update"] + if recursive then ["--init", "--recursive"] else []
  }

  /** submoduleClean(recursive): the clean command as a single argument, last. */
  function SubmoduleCleanArgs(recursive: bool): (args: seq<string>)
    ensures |args| >= 2 && args[..2] == ["submodule", "foreach"]
    ensures |args| == if recursive then 4 else 3
    ensures args[|args| - 1] == "git clean -fdx"
    ensures recursive ==> args[2] == "--recursive"
  {
    ["submodule", "foreach"] + (if recursive then ["--recursive"] else []) + ["git clean -fdx"]
  }

  function SubmoduleUpdate(tool: Tool, recursive: bool): Outcome { Drop(Launch(tool, SubmoduleUpdateArgs(recursive))) }

  function SubmoduleClean(tool: Tool, recursive: bool): Outcome { Drop(Launch(tool, SubmoduleCleanArgs(recursive))) }

  /** push(repository, refspec): to the remote's first URL. */
  function PushArgs(remote: RemoteConfig, refspec: Option<string>): (r: Result<seq<string>>)
    ensures r.Err? <==> remote.uris == []
    ensures r.Err? ==> r.error == IndexOutOfBounds
    ensures r.Ok? ==> |r.value| >= 2 && r.value[..2] == ["push", remote.uris[0]]
    ensures r.Ok? ==> (|r.value| == 3 <==> refspec.Some?) && |r.value| <= 3
    ensures r.Ok? && refspec.Some? ==> r.value[2] == refspec.value
  {
    if remote.uris == [] then Err(IndexOutOfBounds)
    else Ok(["push", remote.uris[0]] + match refspec case None => [] case Some(spec) => [spec])
  }

  function Push(tool: Tool, remote: RemoteConfig, refspec: Option<string>): Outcome
  {
    match PushArgs(remote, refspec)
    case Err(e) => Fail(e)
    case Ok(args) => Drop(Launch(tool, args))
  }
}
