/** The repository layer itself (GitAPI.java): an object bound to one
    workspace, holding the identities it commits with and driving the
    external tool. The repository configurations it writes are part of its
    state here, since fixSubmoduleUrls is where the layer changes persisted
    state.

    Each method performs its operation step by step, reading the tool's
    output line by line as the Java code does, and is proved to compute the
    function that specifies it (Queries, GitConfig, Remediation, Identity). */
module GitApi {
  import opened Results
  import opened Text
  import opened Seqs
  import opened GitTool
  import opened Queries
  import opened GitConfig
  import opened Commands
  import opened Remediation
  import opened Identity

  class GitApi {
    /** The executable, the workspace's file system and the embedded library. */
    const tool: Tool
    /** Whether the embedded library could be bound to the workspace's repository. */
    const delegateBound: bool
    var config: ConfigState
    var author: Option<PersonIdent>
    var committer: Option<PersonIdent>

    constructor (tool: Tool, delegateBound: bool, config: ConfigState)
      ensures this.tool == tool && this.delegateBound == delegateBound && this.config == config
      ensures author.None? && committer.None?
    {
      this.tool := tool;
      this.delegateBound := delegateBound;
      this.config := config;
      author := None;
      committer := None;
    }

    // -------------------------------------------------------------------
    // Output parsers
    // -------------------------------------------------------------------

    /** lsTree(treeIsh): one entry per output line. */
    method LsTree(treeIsh: string) returns (r: Result<seq<IndexEntry>>)
      ensures r == Queries.LsTree(tool, treeIsh)
    {
      var result := Launch(tool, LsTreeArgs(treeIsh));
      if result.Err? {
        return Err(result.error);
      }
      var entries: seq<IndexEntry> := [];
      var rest := result.value;
      PrependUnits(entries, ParseLsTree(Lines(result.value)));
      while rest != []
        invariant Prepend(entries, ParseLsTree(Lines(rest))) == ParseLsTree(Lines(result.value))
        decreases |rest|
      {
        var (line, next) := ReadLine(rest);
        var entry := SplitOnWhitespace(line);
        if |entry| < 4 {
          return Err(IndexOutOfBounds);
        }
        PrependAssoc(entries, [IndexEntry(entry[0], entry[1], entry[2], entry[3])], ParseLsTree(Lines(next)));
        entries := entries + [IndexEntry(entry[0], entry[1], entry[2], entry[3])];
        rest := next;
      }
      PrependUnits(entries, Ok([]));
      return Ok(entries);
    }

    /** getSubmodules(treeIsh): the listing, with every entry that is not a
        gitlink removed from it in place. */
    method GetSubmodules(treeIsh: string) returns (r: Result<seq<IndexEntry>>)
      ensures r == Submodules(tool, treeIsh)
    {
      var listed := LsTree(treeIsh);
      if listed.Err? {
        return listed;
      }
      var submodules := listed.value;
      var i := 0;
      while i < |submodules|
        invariant 0 <= i <= |submodules|
        invariant forall j :: 0 <= j < i ==> IsSubmodule(submodules[j])
        invariant Filter(submodules, IsSubmodule) == Filter(listed.value, IsSubmodule)
        decreases |submodules| - i
      {
        if !IsSubmodule(submodules[i]) {
          ghost var before := submodules;
          submodules := submodules[..i] + submodules[i + 1..];
          FilterSkipsRejected(before, i, IsSubmodule);
        } else {
          i := i + 1;
        }
      }
      FilterKeepsAll(submodules, IsSubmodule);
      return Ok(submodules);
    }

    /** revList(extraArgs...): one object id per output line. */
    method RevList(extraArgs: seq<string>) returns (r: Result<seq<ObjectId>>)
      ensures r == Queries.RevList(tool, extraArgs)
    {
      var result := Launch(tool, RevListArgs(extraArgs));
      if result.Err? {
        return Err(result.error);
      }
      var entries: seq<ObjectId> := [];
      var rest := result.value;
      PrependUnits(entries, ParseObjectIds(tool, Lines(result.value)));
      while rest != []
        invariant Prepend(entries, ParseObjectIds(tool, Lines(rest))) == ParseObjectIds(tool, Lines(result.value))
        decreases |rest|
      {
        var (line, next) := ReadLine(rest);
        var id := tool.parseObjectId(line);
        if id.None? {
          return Err(InvalidObjectId(line));
        }
        PrependAssoc(entries, [id.value], ParseObjectIds(tool, Lines(next)));
        entries := entries + [id.value];
        rest := next;
      }
      PrependUnits(entries, Ok([]));
      return Ok(entries);
    }

    /** parseBranches(output). */
    method ParseBranchesOf(output: string) returns (r: Result<seq<Branch>>)
      ensures r == ParseBranches(tool, Lines(output))
    {
      var branches: seq<Branch> := [];
      var rest := output;
      PrependUnits(branches, ParseBranches(tool, Lines(output)));
      while rest != []
        invariant Prepend(branches, ParseBranches(tool, Lines(rest))) == ParseBranches(tool, Lines(output))
        decreases |rest|
      {
        var (line, next) := ReadLine(rest);
        if |line| < 2 {
          return Err(IndexOutOfBounds);
        }
        line := line[2..];
        if !StartsWith(line, "(") && !Contains(line, " -> ") {
          var id := RevParse(tool, line);
          if id.Err? {
            return Err(id.error);
          }
          PrependAssoc(branches, [Branch(Some(line), id.value)], ParseBranches(tool, Lines(next)));
          branches := branches + [Branch(Some(line), id.value)];
        }
        rest := next;
      }
      PrependUnits(branches, Ok([]));
      return Ok(branches);
    }

    /** getBranchesContaining(revspec). */
    method GetBranchesContaining(revspec: string) returns (r: Result<seq<Branch>>)
      ensures r == BranchesContaining(tool, revspec)
    {
      var result := Launch(tool, BranchContainsArgs(revspec));
      if result.Err? {
        return Err(result.error);
      }
      r := ParseBranchesOf(result.value);
    }

    /** getTagNames(pattern): the listed names, collected into a set. */
    method GetTagNames(pattern: string) returns (r: Result<set<string>>)
      ensures r == TagNames(tool, pattern)
    {
      var result := Launch(tool, TagListArgs(pattern));
      if result.Err? {
        return Err(GitException(TagNamesError));
      }
      var tags: set<string> := {};
      var rest := result.value;
      while rest != []
        invariant tags + (set t | t in Lines(rest)) == set t | t in Lines(result.value)
        decreases |rest|
      {
        var (tag, next) := ReadLine(rest);
        assert Lines(rest) == [tag] + Lines(next);
        assert (set t | t in Lines(rest)) == {tag} + (set t | t in Lines(next));
        tags := tags + {tag};
        rest := next;
      }
      assert (set t | t in Lines(rest)) == {};
      return Ok(tags);
    }

    /** getDefaultRemote(preferred): the listed remotes, then the choice among them. */
    method GetDefaultRemote(preferred: string) returns (r: Result<string>)
      ensures r == DefaultRemote(tool, preferred)
    {
      var result := Launch(tool, RemoteArgs());
      if result.Err? {
        return Err(result.error);
      }
      var remotes: seq<string> := [];
      var rest := result.value;
      while rest != []
        invariant remotes + Lines(rest) == Lines(result.value)
        decreases |rest|
      {
        var (line, next) := ReadLine(rest);
        assert Lines(rest) == [line] + Lines(next);
        remotes := remotes + [line];
        rest := next;
      }
      assert remotes == Lines(result.value);
      if preferred in remotes {
        return Ok(preferred);
      } else if |remotes| >= 1 {
        return Ok(remotes[0]);
      } else {
        return Err(GitException(NoRemotes));
      }
    }

    /** getTagsOnCommit(revName): the library's tags, kept when they point at the commit. */
    method GetTagsOnCommit(revName: string) returns (r: Result<seq<Tag>>)
      ensures r == TagsOnCommit(tool, delegateBound, revName)
    {
      var valid := VerifyGitRepository(tool, delegateBound);
      if valid.Fail? {
        return Err(valid.error);
      }
      var commit := tool.resolve(revName);
      if commit.Err? {
        return Err(commit.error);
      }
      var result: seq<Tag> := [];
      if commit.value.Some? {
        var c := commit.value.value;
        var onCommit := (t: Tag) => t.id == c;
        var i := 0;
        while i < |tool.tags|
          invariant 0 <= i <= |tool.tags|
          invariant result == Filter(tool.tags[..i], onCommit)
        {
          var tag := tool.tags[i];
          assert tool.tags[..i + 1] == tool.tags[..i] + [tag];
          FilterConcat(tool.tags[..i], [tag], onCommit);
          if tag.id == c {
            result := result + [tag];
          }
          i := i + 1;
        }
        assert tool.tags[..i] == tool.tags;
      }
      return Ok(result);
    }

    // -------------------------------------------------------------------
    // Configuration writes
    // -------------------------------------------------------------------

    /** setSubmoduleUrl(name, url). */
    method SetSubmoduleUrl(name: string, url: string) returns (o: Outcome)
      modifies this
      ensures (config, o) == GitConfig.SetSubmoduleUrl(tool, old(config), name, url)
      ensures author == old(author) && committer == old(committer)
    {
      var args := SetArgs(Workspace, SubmoduleUrlKey(name), url);
      var result := Launch(tool, args);
      if result.Err? {
        return Fail(result.error);
      }
      config := config.Put(Workspace, SubmoduleUrlKey(name), url);
      return Pass;
    }

    /** setRemoteUrl(name, url), or setRemoteUrl(name, url, GIT_DIR) for `GitDir(GIT_DIR)`. */
    method SetRemoteUrl(name: string, url: string, scope: Scope) returns (o: Outcome)
      modifies this
      ensures (config, o) == GitConfig.SetRemoteUrl(tool, old(config), name, url, scope)
      ensures author == old(author) && committer == old(committer)
    {
      var args := SetArgs(scope, RemoteUrlKey(name), url);
      var result := Launch(tool, args);
      if result.Err? {
        return Fail(result.error);
      }
      config := config.Put(scope, RemoteUrlKey(name), url);
      return Pass;
    }

    // -------------------------------------------------------------------
    // Submodule URL remediation
    // -------------------------------------------------------------------

    /** The probe loop of fixSubmoduleUrls: a local origin's path, then its
        ".git" directory, until one probe does not fail with a `GitException`. */
    method DetectBareness(origin: Uri, bareByDefault: bool) returns (r: Result<bool>)
      ensures r == Bareness(tool, Origin(origin, bareByDefault))
    {
      var isBare := bareByDefault;
      if IsLocal(origin) {
        var paths := [origin.path, Some(PathJoin(origin.path, DotGit))];
        assert paths == ProbePaths(origin);
        var i := 0;
        while i < |paths|
          invariant 0 <= i <= |paths|
          invariant Probe(BareCheck(tool), paths, bareByDefault) == Probe(BareCheck(tool), paths[i..], isBare)
        {
          var probe := IsBareRepository(tool, paths[i]);
          assert paths[i..][1..] == paths[i + 1..];
          if probe.Ok? {
            isBare := probe.value;
            break;
          }
          if !probe.error.IsGitException() {
            return Err(probe.error);
          }
          i := i + 1;
        }
      }
      return Ok(isBare);
    }

    /** The rewrite loop of fixSubmoduleUrls, up to its first failure. */
    method RewriteSubmoduleUrls(originPath: Option<string>, submodules: seq<IndexEntry>) returns (o: Outcome)
      modifies this
      ensures (config, o) == RewriteAll(tool, old(config), originPath, Files(submodules))
      ensures author == old(author) && committer == old(committer)
    {
      var files := Files(submodules);
      var j := 0;
      while j < |submodules|
        invariant 0 <= j <= |submodules|
        invariant RewriteAll(tool, old(config), originPath, files) == RewriteAll(tool, config, originPath, files[j..])
        invariant author == old(author) && committer == old(committer)
      {
        var file := submodules[j].file;
        assert files[j..][0] == file && files[j..][1..] == files[j + 1..];
        var sUrl := PathJoin(originPath, file);
        o := SetSubmoduleUrl(file, sUrl);
        if o.Fail? {
          return;
        }
        var subGitDir := PathJoin(Some(file), DotGit);
        var present := HasGitRepo(tool, subGitDir);
        if present.Err? {
          return Fail(present.error);
        }
        if present.value {
          var current := GetRemoteUrl(tool, config, SubmoduleRemote, GitDir(subGitDir));
          if current.Err? {
            return Fail(current.error);
          }
          if current.value != "" {
            o := SetRemoteUrl(SubmoduleRemote, sUrl, GitDir(subGitDir));
            if o.Fail? {
              return;
            }
          }
        }
        j := j + 1;
      }
      return Pass;
    }

    /** fixSubmoduleUrls(remote): ends in the configuration and outcome that
        Remediation.Fix gives; the lemmas there say what that means. */
    method FixSubmoduleUrls(remote: string) returns (o: Outcome)
      modifies this
      ensures (config, o) == Fix(tool, old(config), remote)
      ensures author == old(author) && committer == old(committer)
    {
      var isBare := true;
      var read := GetRemoteUrl(tool, config, remote, Workspace);
      if read.Err? {
        return Fail(GitException(LookupFailure));
      }
      var url := read.value;
      if EndsWith(url, GitSuffix) {
        url := url[..|url| - |GitSuffix|];
        isBare := false;
      }
      assert StripGitSuffix(read.value) == (url, !isBare);
      var parsed := tool.parseUri(url);
      if parsed.None? {
        return Pass;
      }
      var origin := parsed.value;
      ghost var found := Origin(origin, isBare);
      assert LookupOrigin(tool, config, remote) == Ok(Some(found));
      var detected := DetectBareness(origin, isBare);
      if detected.Err? {
        return Fail(detected.error);
      }
      if detected.value {
        return Pass;
      }
      var submodules := GetSubmodules(HeadTree);
      if submodules.Err? {
        return if submodules.error.IsGitException() then Pass else Fail(submodules.error);
      }
      ghost var before := config;
      ghost var spec := RewriteAll(tool, config, origin.path, Files(submodules.value));
      assert Fix(tool, before, remote) == (spec.0, if spec.1.Fail? && spec.1.error.IsGitException() then Pass else spec.1);
      RewriteAllFrame(tool, config, origin.path, Files(submodules.value));
      o := RewriteSubmoduleUrls(origin.path, submodules.value);
      // Every failure of the loop is a GitException, which the layer swallows.
      return Pass;
    }

    /** setupSubmoduleUrls(remote). */
    method SetupSubmoduleUrls(remote: string) returns (o: Outcome)
      modifies this
      ensures (config, o) == Setup(tool, old(config), remote)
      ensures author == old(author) && committer == old(committer)
    {
      var init := Launch(tool, SubmoduleInitArgs());
      if init.Err? {
        return Fail(init.error);
      }
      var sync := Launch(tool, SubmoduleSyncArgs());
      if sync.Err? {
        return Fail(sync.error);
      }
      o := FixSubmoduleUrls(remote);
    }

    /** setupSubmoduleUrls(revision): the remote named by the revision's first branch. */
    method SetupSubmoduleUrlsForRevision(rev: Revision) returns (o: Outcome)
      modifies this
      ensures (config, o) == SetupForRevision(tool, old(config), rev)
      ensures author == old(author) && committer == old(committer)
    {
      var remote: Result<string>;
      if rev.branches != [] {
        var b := rev.branches[0].name;
        if b.Some? {
          var slash := IndexOf(b.value, '/');
          if slash == -1 {
            return Fail(GitException("no remote from branch name (" + b.value + ")"));
          }
          remote := GetDefaultRemote(b.value[..slash]);
        } else {
          remote := GetDefaultRemote(DefaultRemoteName);
        }
      } else {
        remote := GetDefaultRemote(DefaultRemoteName);
      }
      if remote.Err? {
        return Fail(remote.error);
      }
      o := SetupSubmoduleUrls(remote.value);
    }

    // -------------------------------------------------------------------
    // Identities
    // -------------------------------------------------------------------

    /** parseEnvVars(envVars): both identities are recomputed from the environment. */
    method ParseEnvVars(env: Option<map<string, string>>)
      modifies this
      ensures Identities(author, committer) == IdentitiesFrom(env)
      ensures config == old(config)
    {
      author := BuildPersonIdent(env, AuthorNameVar, AuthorEmailVar);
      committer := BuildPersonIdent(env, CommitterNameVar, CommitterEmailVar);
    }
  }
}
