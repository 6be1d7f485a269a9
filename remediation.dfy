/** Submodule URL remediation (GitAPI.java: pathJoin, fixSubmoduleUrls and
    the two setupSubmoduleUrls).

    When the superproject's origin is a local, non-bare repository, the URL
    git records for each submodule points at the wrong place; the layer
    rewrites it to the submodule's directory inside the origin. This module
    gives the whole decision and every configuration write it makes as
    functions of the oracle and the configuration; GitApi.GitApi runs the
    same steps imperatively and is proved to end in the state given here. */
module Remediation {
  import opened Results
  import opened Text
  import opened GitTool
  import opened Queries
  import opened GitConfig
  import opened Commands

  // ---------------------------------------------------------------------
  // pathJoin: java.io.File(parent, child) with '/' as the separator
  // ---------------------------------------------------------------------

  predicate NoDoubleSlash(s: string)
  {
    forall i :: 0 <= i < |s| - 1 ==> !(s[i] == '/' && s[i + 1] == '/')
  }

  /** A path as java.io.File keeps it: no empty segments and no trailing
      separator, unless the path is the root itself. */
  predicate IsNormalPath(s: string)
  {
    NoDoubleSlash(s) && (|s| <= 1 || s[|s| - 1] != '/')
  }

  /** Every run of separators becomes one. */
  function CollapseSlashes(s: string): (r: string)
    ensures NoDoubleSlash(r)
    ensures |r| <= |s|
    ensures s != [] ==> r != [] && r[0] == s[0] && r[|r| - 1] == s[|s| - 1]
  {
    if |s| <= 1 then s
    else if s[0] == '/' && s[1] == '/' then CollapseSlashes(s[1..])
    else [s[0]] + CollapseSlashes(s[1..])
  }

  /** The normal form UnixFileSystem.normalize gives a path. */
  function NormalizePath(s: string): (r: string)
    ensures IsNormalPath(r)
    ensures r == [] <==> s == []
  {
    var c := CollapseSlashes(s);
    if |c| > 1 && c[|c| - 1] == '/' then c[..|c| - 1] else c
  }

  lemma {:induction false} CollapseKeepsNormal(s: string)
    requires NoDoubleSlash(s)
    ensures CollapseSlashes(s) == s
  {
    if |s| > 1 {
      CollapseKeepsNormal(s[1..]);
      assert [s[0]] + s[1..] == s;
    }
  }

  /** Normalising a normal path leaves it as it is, so normalising is idempotent. */
  lemma NormalizeKeepsNormal(s: string)
    requires IsNormalPath(s)
    ensures NormalizePath(s) == s
  {
    CollapseKeepsNormal(s);
  }

  /** UnixFileSystem.resolve(parent, child) for normal paths. */
  function ResolvePath(parent: string, child: string): string
  {
    if child == [] then parent
    else if child[0] == '/' then (if parent == "/" then child else parent + child)
    else if parent == "/" then parent + child
    else parent + "/" + child
  }

  /** `new File(parent, child).toString()`, where a `null` parent means the child alone. */
  function PathJoin(parent: Option<string>, child: string): string
  {
    match parent
    case None => NormalizePath(child)
    case Some(p) =>
      if p == [] then ResolvePath("/", NormalizePath(child))
      else ResolvePath(NormalizePath(p), NormalizePath(child))
  }

  /** A relative name under a directory is the directory, one separator and the name. */
  lemma JoinUnderDirectory(dir: string, name: string)
    requires IsNormalPath(dir) && dir != [] && dir != "/"
    requires IsNormalPath(name) && name != [] && name[0] != '/'
    ensures PathJoin(Some(dir), name) == dir + "/" + name
    ensures PathJoin(None, name) == name
  {
    NormalizeKeepsNormal(dir);
    NormalizeKeepsNormal(name);
  }

  /** `pathJoin("", ".git")`: the suffix fixSubmoduleUrls strips from the origin URL. */
  const GitSuffix := "/.git"

  lemma GitSuffixIsJoin()
    ensures PathJoin(Some(""), DotGit) == GitSuffix
  {
    assert IsNormalPath(DotGit);
    NormalizeKeepsNormal(DotGit);
  }

  // ---------------------------------------------------------------------
  // The origin and its bareness
  // ---------------------------------------------------------------------

  const LookupFailure := "Could determine remote.origin.url"

  /** The parsed origin URL and the bareness assumed when it cannot be checked. */
  datatype Origin = Origin(uri: Uri, bareByDefault: bool)

  /** The URL without a trailing "/.git", and whether there was one. */
  function StripGitSuffix(url: string): (r: (string, bool))
    ensures r.1 <==> EndsWith(url, GitSuffix)
    ensures r.1 ==> r.0 + GitSuffix == url
    ensures !r.1 ==> r.0 == url
  {
    if EndsWith(url, GitSuffix) then (url[..|url| - |GitSuffix|], true) else (url, false)
  }

  /** The first step of fixSubmoduleUrls: the remote's URL, stripped and parsed.
      `Ok(None)` is a URL the URI parser rejects; any failure to read the URL
      becomes one `GitException`. */
  function LookupOrigin(tool: Tool, cfg: ConfigState, remote: string): (r: Result<Option<Origin>>)
    ensures r.Err? <==> GetRemoteUrl(tool, cfg, remote, Workspace).Err?
    ensures r.Err? ==> r.error == GitException(LookupFailure)
    ensures r.Ok? ==> var stripped := StripGitSuffix(GetRemoteUrl(tool, cfg, remote, Workspace).value);
                      && (r.value.None? <==> tool.parseUri(stripped.0).None?)
                      && (r.value.Some? ==> r.value.value.uri == tool.parseUri(stripped.0).value
                                            && r.value.value.bareByDefault == !stripped.1)
  {
    match GetRemoteUrl(tool, cfg, remote, Workspace)
    case Err(_) => Err(GitException(LookupFailure))
    case Ok(url) =>
      var (stripped, hadSuffix) := StripGitSuffix(url);
      match tool.parseUri(stripped)
      case None => Ok(None)
      case Some(uri) => Ok(Some(Origin(uri, !hadSuffix)))
  }

  /** An origin without a scheme, or a `file:` URI (any case) with no host, is a local path. */
  predicate IsLocal(uri: Uri)
  {
    uri.scheme.None? || (EqualsIgnoreCase("file", uri.scheme.value) && (uri.host.None? || uri.host == Some("")))
  }

  /** The paths probed, in order: the origin's path, then its ".git" directory. */
  function ProbePaths(uri: Uri): seq<Option<string>>
  {
    [uri.path, Some(PathJoin(uri.path, DotGit))]
  }

  /** A probe's answer decides unless it is a `GitException`. */
  predicate Decisive(r: Result<bool>) { r.Ok? || !r.error.IsGitException() }

  /** Probing `path` with isBareRepository decides. */
  predicate Decides(tool: Tool, path: Option<string>)
  {
    Decisive(IsBareRepository(tool, path))
  }

  /** isBareRepository as the probe that fixSubmoduleUrls applies to each path. */
  function BareCheck(tool: Tool): Option<string> -> Result<bool>
  {
    path => IsBareRepository(tool, path)
  }

  /** The probe loop, with `check` applied to each path in turn: the first
      answer that decides is the loop's answer (or its failure); when none
      decides, the assumed bareness stands. */
  function Probe(check: Option<string> -> Result<bool>, paths: seq<Option<string>>, bare: bool): (r: Result<bool>)
    ensures (forall i :: 0 <= i < |paths| ==> !Decisive(check(paths[i]))) ==> r == Ok(bare)
  {
    if paths == [] then Ok(bare)
    else
      var first := check(paths[0]);
      if Decisive(first) then first
      else
        var rest := Probe(check, paths[1..], bare);
        assert forall i :: 0 <= i < |paths| - 1 ==> paths[1..][i] == paths[i + 1];
        rest
  }

  /** The first probe that decides gives the answer of the loop. */
  lemma {:induction false} ProbeFirstDecides(check: Option<string> -> Result<bool>, paths: seq<Option<string>>, bare: bool, k: nat)
    requires k < |paths| && Decisive(check(paths[k]))
    requires forall i :: 0 <= i < k ==> !Decisive(check(paths[i]))
    ensures Probe(check, paths, bare) == check(paths[k])
  {
    if k > 0 {
      assert !Decisive(check(paths[0]));
      assert forall i :: 0 <= i < k - 1 ==> paths[1..][i] == paths[i + 1];
      ProbeFirstDecides(check, paths[1..], bare, k - 1);
    }
  }

  /** The loop over two paths: the first, else the second, else the default. */
  lemma ProbeTwo(check: Option<string> -> Result<bool>, first: Option<string>, second: Option<string>, bare: bool)
    ensures Decisive(check(first)) ==> Probe(check, [first, second], bare) == check(first)
    ensures !Decisive(check(first)) && Decisive(check(second)) ==> Probe(check, [first, second], bare) == check(second)
    ensures !Decisive(check(first)) && !Decisive(check(second)) ==> Probe(check, [first, second], bare) == Ok(bare)
  {
    var paths := [first, second];
    if Decisive(check(first)) {
      ProbeFirstDecides(check, paths, bare, 0);
    } else if Decisive(check(second)) {
      ProbeFirstDecides(check, paths, bare, 1);
    }
  }

  /** Whether fixSubmoduleUrls takes the origin to be bare: probed for a local
      origin, assumed for a remote one. */
  function Bareness(tool: Tool, origin: Origin): Result<bool>
  {
    if IsLocal(origin.uri) then Probe(BareCheck(tool), ProbePaths(origin.uri), origin.bareByDefault)
    else Ok(origin.bareByDefault)
  }

  // ---------------------------------------------------------------------
  // Rewriting
  // ---------------------------------------------------------------------

  /** The remote a materialised submodule's own configuration is rewritten for. */
  const SubmoduleRemote := "origin"

  /** The tree whose submodules are rewritten. */
  const HeadTree := "HEAD"

  function SubGitDir(file: string): string { PathJoin(Some(file), DotGit) }

  function Files(subs: seq<IndexEntry>): (files: seq<string>)
    ensures |files| == |subs|
    ensures forall i :: 0 <= i < |subs| ==> files[i] == subs[i].file
  {
    if subs == [] then [] else [subs[0].file] + Files(subs[1..])
  }

  /** The entries a rewrite of `files` may write: each submodule's URL in the
      workspace, and the origin URL in each submodule's own repository. */
  predicate Touchable(scope: Scope, key: string, files: seq<string>)
  {
    exists f :: f in files && ((scope == Workspace && key == SubmoduleUrlKey(f))
                               || (scope == GitDir(SubGitDir(f)) && key == RemoteUrlKey(SubmoduleRemote)))
  }

  predicate SameEntry(a: ConfigState, b: ConfigState, scope: Scope, key: string)
  {
    && (key in a.Store(scope) <==> key in b.Store(scope))
    && (key in a.Store(scope) ==> a.Store(scope)[key] == b.Store(scope)[key])
  }

  /** Going from `a` to `b` wrote nothing but entries that `files` may touch. */
  ghost predicate ChangesOnly(a: ConfigState, b: ConfigState, files: seq<string>)
  {
    forall scope, key :: !Touchable(scope, key, files) ==> SameEntry(a, b, scope, key)
  }

  /** One pass of the rewrite loop: the submodule's URL in the workspace,
      then the submodule's own origin URL. */
  function RewriteOne(tool: Tool, cfg: ConfigState, originPath: Option<string>, file: string): (r: (ConfigState, Outcome))
  {
    var url := PathJoin(originPath, file);
    var (c, o) := SetSubmoduleUrl(tool, cfg, file, url);
    if o.Fail? then (c, o) else RewriteOrigin(tool, c, url, file)
  }

  /** The second half of a pass: when the submodule is checked out and
      already has a non-empty origin URL, that URL is set to `url`. */
  function RewriteOrigin(tool: Tool, c: ConfigState, url: string, file: string): (r: (ConfigState, Outcome))
  {
    match HasGitRepo(tool, SubGitDir(file))
    case Err(e) => (c, Fail(e))
    case Ok(false) => (c, Pass)
    case Ok(true) =>
      match GetRemoteUrl(tool, c, SubmoduleRemote, GitDir(SubGitDir(file)))
      case Err(e) => (c, Fail(e))
      case Ok(current) =>
        if current == "" then (c, Pass)
        else SetRemoteUrl(tool, c, SubmoduleRemote, url, GitDir(SubGitDir(file)))
  }

  /** The submodule is checked out and its origin URL reads as non-empty:
      the condition under which a pass rewrites that URL. */
  predicate OriginWanted(tool: Tool, cfg: ConfigState, file: string)
  {
    && HasGitRepo(tool, SubGitDir(file)) == Ok(true)
    && GetRemoteUrl(tool, cfg, SubmoduleRemote, GitDir(SubGitDir(file))).Ok?
    && GetRemoteUrl(tool, cfg, SubmoduleRemote, GitDir(SubGitDir(file))).value != ""
  }

  /** The rewrite loop, stopping at the first failure with every earlier write kept. */
  function RewriteAll(tool: Tool, cfg: ConfigState, originPath: Option<string>, files: seq<string>): (r: (ConfigState, Outcome))
    decreases |files|
  {
    if files == [] then (cfg, Pass)
    else
      var (c, o) := RewriteOne(tool, cfg, originPath, files[0]);
      if o.Fail? then (c, o) else RewriteAll(tool, c, originPath, files[1..])
  }

  /** fixSubmoduleUrls(remote): the final configuration and outcome. */
  function Fix(tool: Tool, cfg: ConfigState, remote: string): (r: (ConfigState, Outcome))
  {
    match LookupOrigin(tool, cfg, remote)
    case Err(e) => (cfg, Fail(e))
    case Ok(None) => (cfg, Pass)
    case Ok(Some(origin)) =>
      match Bareness(tool, origin)
      case Err(e) => (cfg, Fail(e))
      case Ok(true) => (cfg, Pass)
      case Ok(false) =>
        match Submodules(tool, HeadTree)
        case Err(e) => (cfg, if e.IsGitException() then Pass else Fail(e))
        case Ok(subs) =>
          var (c, o) := RewriteAll(tool, cfg, origin.uri.path, Files(subs));
          (c, if o.Fail? && o.error.IsGitException() then Pass else o)
  }

  // ---------------------------------------------------------------------
  // Properties of the rewrite
  // ---------------------------------------------------------------------

  /** A write of one entry leaves every other entry of every repository as it was. */
  lemma PutFrame(cfg: ConfigState, scope: Scope, key: string, value: string)
    ensures forall s, k :: (s != scope || k != key) ==> SameEntry(cfg, cfg.Put(scope, key, value), s, k)
    ensures SameEntry(cfg.Put(scope, key, value), cfg.Put(scope, key, value), scope, key)
    ensures key in cfg.Put(scope, key, value).Store(scope) && cfg.Put(scope, key, value).Store(scope)[key] == value
  {
  }

  lemma ChangesOnlyTrans(a: ConfigState, b: ConfigState, c: ConfigState, f: seq<string>, g: seq<string>)
    requires ChangesOnly(a, b, f) && ChangesOnly(b, c, g)
    ensures ChangesOnly(a, c, f + g)
  {
    forall scope, key | !Touchable(scope, key, f + g) ensures SameEntry(a, c, scope, key) {
      assert !Touchable(scope, key, f);
      assert !Touchable(scope, key, g);
    }
  }

  /** One pass writes only the entries of its own submodule, and fails only
      with a `GitException`; once it has passed, the submodule's URL is set. */
  lemma RewriteOneEffect(tool: Tool, cfg: ConfigState, originPath: Option<string>, file: string)
    ensures ChangesOnly(cfg, RewriteOne(tool, cfg, originPath, file).0, [file])
    ensures RewriteOne(tool, cfg, originPath, file).1.Fail? ==> RewriteOne(tool, cfg, originPath, file).1.error.IsGitException()
    ensures RewriteOne(tool, cfg, originPath, file).1.Pass? ==>
              var ws := RewriteOne(tool, cfg, originPath, file).0.Store(Workspace);
              SubmoduleUrlKey(file) in ws && ws[SubmoduleUrlKey(file)] == PathJoin(originPath, file)
  {
    var url := PathJoin(originPath, file);
    var (c, o) := SetSubmoduleUrl(tool, cfg, file, url);
    if o.Pass? {
      WriteFrame(cfg, Workspace, SubmoduleUrlKey(file), url, file);
      RewriteOneAfterWrite(tool, c, url, file);
      var r := RewriteOne(tool, cfg, originPath, file);
      if r.0 != c {
        ChangesOnlyTrans(cfg, c, r.0, [file], [file]);
        ChangesOnlyTwice(cfg, r.0, file);
      }
    }
  }

  /** The part of one pass after the submodule's URL was written to `c`: it
      leaves `c` as it is or writes the submodule's own origin URL, and fails
      only with a `GitException`. */
  lemma RewriteOneAfterWrite(tool: Tool, c: ConfigState, url: string, file: string)
    ensures var sub := GitDir(SubGitDir(file));
            var r := RewriteOrigin(tool, c, url, file);
            && (r.1.Fail? ==> r.1.error.IsGitException())
            && (r.0 == c || (r.0 == c.Put(sub, RemoteUrlKey(SubmoduleRemote), url) && ChangesOnly(c, r.0, [file])))
            && r.0.Store(Workspace) == c.Store(Workspace)
  {
    var sub := GitDir(SubGitDir(file));
    ReadValueCases(tool, c, sub, RemoteUrlKey(SubmoduleRemote));
    WriteFrame(c, sub, RemoteUrlKey(SubmoduleRemote), url, file);
  }

  /** The submodule's own origin URL is written exactly when the submodule is
      checked out, its origin URL is non-empty and the set command succeeds;
      in every other case the pass keeps the configuration it was given. */
  lemma RewriteOriginCases(tool: Tool, c: ConfigState, url: string, file: string)
    ensures var sub := GitDir(SubGitDir(file));
            var r := RewriteOrigin(tool, c, url, file);
            && (!OriginWanted(tool, c, file) ==> r.0 == c)
            && (!OriginWanted(tool, c, file) ==>
                  (r.1.Pass? <==> HasGitRepo(tool, SubGitDir(file)).Ok? &&
                                  (HasGitRepo(tool, SubGitDir(file)).value ==> GetRemoteUrl(tool, c, SubmoduleRemote, sub).Ok?)))
            && (OriginWanted(tool, c, file) && Launch(tool, SetArgs(sub, RemoteUrlKey(SubmoduleRemote), url)).Ok? ==>
                  r == (c.Put(sub, RemoteUrlKey(SubmoduleRemote), url), Pass))
            && (OriginWanted(tool, c, file) && Launch(tool, SetArgs(sub, RemoteUrlKey(SubmoduleRemote), url)).Err? ==>
                  r.0 == c && r.1.Fail?)
  {
  }

  /** One whole pass: a failed workspace write changes nothing; otherwise the
      submodule's URL is written, and its own origin URL as well exactly when
      `OriginWanted` holds, judged on the configuration before the pass, and
      the set command succeeds. */
  lemma RewriteOneWrites(tool: Tool, cfg: ConfigState, originPath: Option<string>, file: string)
    ensures var url := PathJoin(originPath, file);
            var sub := GitDir(SubGitDir(file));
            var ws := cfg.Put(Workspace, SubmoduleUrlKey(file), url);
            var r := RewriteOne(tool, cfg, originPath, file);
            && (Launch(tool, SetArgs(Workspace, SubmoduleUrlKey(file), url)).Err? ==> r.0 == cfg && r.1.Fail?)
            && (Launch(tool, SetArgs(Workspace, SubmoduleUrlKey(file), url)).Ok? ==>
                  && (!OriginWanted(tool, cfg, file) ==> r.0 == ws)
                  && (OriginWanted(tool, cfg, file) && Launch(tool, SetArgs(sub, RemoteUrlKey(SubmoduleRemote), url)).Ok? ==>
                        r == (ws.Put(sub, RemoteUrlKey(SubmoduleRemote), url), Pass))
                  && (OriginWanted(tool, cfg, file) && Launch(tool, SetArgs(sub, RemoteUrlKey(SubmoduleRemote), url)).Err? ==>
                        r.0 == ws && r.1.Fail?))
  {
    var url := PathJoin(originPath, file);
    var sub := GitDir(SubGitDir(file));
    var (c, o) := SetSubmoduleUrl(tool, cfg, file, url);
    if o.Pass? {
      var key := RemoteUrlKey(SubmoduleRemote);
      UrlKeysAreDistinct(SubmoduleRemote, file);
      PutFrame(cfg, Workspace, SubmoduleUrlKey(file), url);
      assert SameEntry(cfg, c, sub, key);
      SameEntrySameRead(tool, cfg, c, sub, key);
      assert OriginWanted(tool, cfg, file) <==> OriginWanted(tool, c, file);
      RewriteOriginCases(tool, c, url, file);
    }
  }

  /** Writing an entry that a submodule's rewrite may touch changes nothing else. */
  lemma WriteFrame(cfg: ConfigState, scope: Scope, key: string, value: string, file: string)
    requires Touchable(scope, key, [file])
    ensures ChangesOnly(cfg, cfg.Put(scope, key, value), [file])
    ensures scope != Workspace ==> cfg.Put(scope, key, value).Store(Workspace) == cfg.Store(Workspace)
  {
    PutFrame(cfg, scope, key, value);
  }

  lemma ChangesOnlyTwice(a: ConfigState, b: ConfigState, file: string)
    requires ChangesOnly(a, b, [file] + [file])
    ensures ChangesOnly(a, b, [file])
  {
    assert forall scope, key :: Touchable(scope, key, [file] + [file]) ==> Touchable(scope, key, [file]);
  }

  /** The whole loop writes only entries of the listed submodules, and fails
      only with a `GitException`. */
  lemma {:induction false} RewriteAllFrame(tool: Tool, cfg: ConfigState, originPath: Option<string>, files: seq<string>)
    ensures ChangesOnly(cfg, RewriteAll(tool, cfg, originPath, files).0, files)
    ensures RewriteAll(tool, cfg, originPath, files).1.Fail? ==> RewriteAll(tool, cfg, originPath, files).1.error.IsGitException()
    decreases |files|
  {
    if files != [] {
      var (c, o) := RewriteOne(tool, cfg, originPath, files[0]);
      RewriteOneEffect(tool, cfg, originPath, files[0]);
      if o.Fail? {
        assert ChangesOnly(cfg, c, files) by {
          forall scope, key | !Touchable(scope, key, files) ensures SameEntry(cfg, c, scope, key) {
            assert !Touchable(scope, key, [files[0]]);
          }
        }
      } else {
        RewriteAllFrame(tool, c, originPath, files[1..]);
        ChangesOnlyTrans(cfg, c, RewriteAll(tool, c, originPath, files[1..]).0, [files[0]], files[1..]);
        assert [files[0]] + files[1..] == files;
      }
    }
  }

  /** When the loop runs to its end, every listed submodule's URL is its
      path joined to the origin's path, whatever the order of the list. */
  lemma {:induction false} RewriteAllSetsUrls(tool: Tool, cfg: ConfigState, originPath: Option<string>, files: seq<string>)
    requires RewriteAll(tool, cfg, originPath, files).1.Pass?
    ensures forall f :: f in files ==>
              var ws := RewriteAll(tool, cfg, originPath, files).0.Store(Workspace);
              SubmoduleUrlKey(f) in ws && ws[SubmoduleUrlKey(f)] == PathJoin(originPath, f)
    decreases |files|
  {
    if files != [] {
      var (c, o) := RewriteOne(tool, cfg, originPath, files[0]);
      RewriteOneEffect(tool, cfg, originPath, files[0]);
      var rest := files[1..];
      RewriteAllSetsUrls(tool, c, originPath, rest);
      RewriteAllFrame(tool, c, originPath, rest);
      var final := RewriteAll(tool, c, originPath, rest).0;
      assert final == RewriteAll(tool, cfg, originPath, files).0;
      forall f | f in files
        ensures SubmoduleUrlKey(f) in final.Store(Workspace) && final.Store(Workspace)[SubmoduleUrlKey(f)] == PathJoin(originPath, f)
      {
        if f !in rest {
          assert f == files[0];
          if Touchable(Workspace, SubmoduleUrlKey(f), rest) {
            var g :| g in rest && ((Workspace == Workspace && SubmoduleUrlKey(f) == SubmoduleUrlKey(g))
                                   || (Workspace == GitDir(SubGitDir(g)) && SubmoduleUrlKey(f) == RemoteUrlKey(SubmoduleRemote)));
            UrlKeysAreDistinct(f, g);
          }
          assert SameEntry(c, final, Workspace, SubmoduleUrlKey(f));
        }
      }
    }
  }

  /** Running the loop over `a + b` is running it over `a` and, when that
      passed, over `b` from where it stopped. */
  lemma {:induction false} RewriteAllConcat(tool: Tool, cfg: ConfigState, originPath: Option<string>, a: seq<string>, b: seq<string>)
    ensures RewriteAll(tool, cfg, originPath, a + b) ==
              var ra := RewriteAll(tool, cfg, originPath, a);
              if ra.1.Fail? then ra else RewriteAll(tool, ra.0, originPath, b)
    decreases |a|
  {
    if a != [] {
      assert (a + b)[0] == a[0] && (a + b)[1..] == a[1..] + b;
      var (c, o) := RewriteOne(tool, cfg, originPath, a[0]);
      if o.Pass? {
        RewriteAllConcat(tool, c, originPath, a[1..], b);
      }
    } else {
      assert a + b == b;
    }
  }

  /** A failure part-way through the loop keeps the earlier writes: every
      submodule whose pass completed before it, and that no later pass
      touches, keeps its rewritten URL. */
  lemma RewriteAllKeepsEarlierUrls(tool: Tool, cfg: ConfigState, originPath: Option<string>, files: seq<string>, k: nat)
    requires k <= |files|
    requires RewriteAll(tool, cfg, originPath, files[..k]).1.Pass?
    ensures forall f :: f in files[..k] && f !in files[k..] ==>
              var ws := RewriteAll(tool, cfg, originPath, files).0.Store(Workspace);
              SubmoduleUrlKey(f) in ws && ws[SubmoduleUrlKey(f)] == PathJoin(originPath, f)
  {
    var pre, post := files[..k], files[k..];
    assert files == pre + post;
    RewriteAllConcat(tool, cfg, originPath, pre, post);
    var mid := RewriteAll(tool, cfg, originPath, pre).0;
    RewriteAllSetsUrls(tool, cfg, originPath, pre);
    RewriteAllFrame(tool, mid, originPath, post);
    var final := RewriteAll(tool, mid, originPath, post).0;
    assert RewriteAll(tool, cfg, originPath, files).0 == final;
    forall f | f in pre && f !in post
      ensures SubmoduleUrlKey(f) in final.Store(Workspace) && final.Store(Workspace)[SubmoduleUrlKey(f)] == PathJoin(originPath, f)
    {
      UntouchedSubmoduleUrl(mid, final, post, f);
    }
  }

  /** A submodule outside `files` keeps its URL across changes confined to `files`. */
  lemma UntouchedSubmoduleUrl(a: ConfigState, b: ConfigState, files: seq<string>, f: string)
    requires ChangesOnly(a, b, files) && f !in files
    ensures SameEntry(a, b, Workspace, SubmoduleUrlKey(f))
  {
    if Touchable(Workspace, SubmoduleUrlKey(f), files) {
      var g :| g in files && ((Workspace == Workspace && SubmoduleUrlKey(f) == SubmoduleUrlKey(g))
                              || (Workspace == GitDir(SubGitDir(g)) && SubmoduleUrlKey(f) == RemoteUrlKey(SubmoduleRemote)));
      UrlKeysAreDistinct(f, g);
    }
  }

  // ---------------------------------------------------------------------
  // Properties of fixSubmoduleUrls
  // ---------------------------------------------------------------------

  /** An origin URL that cannot be read is an error; one that cannot be
      parsed ends the fix silently; in both cases nothing is written. */
  lemma FixAbortsEarly(tool: Tool, cfg: ConfigState, remote: string)
    ensures GetRemoteUrl(tool, cfg, remote, Workspace).Err? ==>
              Fix(tool, cfg, remote) == (cfg, Fail(GitException(LookupFailure)))
    ensures GetRemoteUrl(tool, cfg, remote, Workspace).Ok? &&
            tool.parseUri(StripGitSuffix(GetRemoteUrl(tool, cfg, remote, Workspace).value).0).None? ==>
              Fix(tool, cfg, remote) == (cfg, Pass)
  {
  }

  /** The configuration changes only when the origin was found to be
      non-bare and its submodules were listed, and then only in the entries
      of those submodules; a fix that fails has changed nothing. */
  lemma FixFrame(tool: Tool, cfg: ConfigState, remote: string)
    ensures Fix(tool, cfg, remote).1.Fail? ==> Fix(tool, cfg, remote).0 == cfg
    ensures Fix(tool, cfg, remote).0 != cfg ==>
              && LookupOrigin(tool, cfg, remote).Ok?
              && LookupOrigin(tool, cfg, remote).value.Some?
              && Bareness(tool, LookupOrigin(tool, cfg, remote).value.value) == Ok(false)
              && Submodules(tool, HeadTree).Ok?
              && ChangesOnly(cfg, Fix(tool, cfg, remote).0, Files(Submodules(tool, HeadTree).value))
  {
    var lookup := LookupOrigin(tool, cfg, remote);
    if lookup.Ok? && lookup.value.Some? && Bareness(tool, lookup.value.value) == Ok(false) && Submodules(tool, HeadTree).Ok? {
      RewriteAllFrame(tool, cfg, lookup.value.value.uri.path, Files(Submodules(tool, HeadTree).value));
    }
  }

  /** Once the submodules of a non-bare origin are listed, the fix passes
      whatever happens inside the loop, and keeps every write the loop made
      before it stopped. */
  lemma FixSwallowsLoopFailures(tool: Tool, cfg: ConfigState, remote: string, origin: Origin, subs: seq<IndexEntry>)
    requires LookupOrigin(tool, cfg, remote) == Ok(Some(origin))
    requires Bareness(tool, origin) == Ok(false)
    requires Submodules(tool, HeadTree) == Ok(subs)
    ensures Fix(tool, cfg, remote) == (RewriteAll(tool, cfg, origin.uri.path, Files(subs)).0, Pass)
  {
    RewriteAllFrame(tool, cfg, origin.uri.path, Files(subs));
  }

  /** A submodule listing that fails with a `GitException` (no HEAD yet, say)
      ends the fix quietly; any other failure is passed on; either way nothing
      is written. */
  lemma FixListingFailure(tool: Tool, cfg: ConfigState, remote: string, origin: Origin)
    requires LookupOrigin(tool, cfg, remote) == Ok(Some(origin))
    requires Bareness(tool, origin) == Ok(false)
    requires Submodules(tool, HeadTree).Err?
    ensures Submodules(tool, HeadTree).error.IsGitException() ==> Fix(tool, cfg, remote) == (cfg, Pass)
    ensures !Submodules(tool, HeadTree).error.IsGitException() ==>
              Fix(tool, cfg, remote) == (cfg, Fail(Submodules(tool, HeadTree).error))
  {
  }

  /** The superproject's own remote URLs are never rewritten. */
  lemma FixKeepsRemoteUrls(tool: Tool, cfg: ConfigState, remote: string, name: string)
    ensures GetRemoteUrl(tool, Fix(tool, cfg, remote).0, name, Workspace) == GetRemoteUrl(tool, cfg, name, Workspace)
  {
    FixFrame(tool, cfg, remote);
    var after := Fix(tool, cfg, remote).0;
    if after != cfg {
      var files := Files(Submodules(tool, HeadTree).value);
      if Touchable(Workspace, RemoteUrlKey(name), files) {
        var f :| f in files && ((Workspace == Workspace && RemoteUrlKey(name) == SubmoduleUrlKey(f))
                                || (Workspace == GitDir(SubGitDir(f)) && RemoteUrlKey(name) == RemoteUrlKey(SubmoduleRemote)));
        UrlKeysAreDistinct(name, f);
      }
      assert SameEntry(cfg, after, Workspace, RemoteUrlKey(name));
      SameEntrySameRead(tool, cfg, after, Workspace, RemoteUrlKey(name));
    }
  }

  lemma SameEntrySameRead(tool: Tool, a: ConfigState, b: ConfigState, scope: Scope, key: string)
    requires SameEntry(a, b, scope, key)
    ensures ReadValue(tool, a, scope, key) == ReadValue(tool, b, scope, key)
  {
    assert ConfigGet(tool, a, scope, key) == ConfigGet(tool, b, scope, key);
  }

  /** For a non-bare origin whose rewrite loop runs to its end, every
      submodule of HEAD now points into the origin's working tree. */
  lemma FixRewritesSubmoduleUrls(tool: Tool, cfg: ConfigState, remote: string, origin: Origin, subs: seq<IndexEntry>)
    requires LookupOrigin(tool, cfg, remote) == Ok(Some(origin))
    requires Bareness(tool, origin) == Ok(false)
    requires Submodules(tool, HeadTree) == Ok(subs)
    requires RewriteAll(tool, cfg, origin.uri.path, Files(subs)).1.Pass?
    ensures Fix(tool, cfg, remote).1 == Pass
    ensures forall i :: 0 <= i < |subs| ==>
              var ws := Fix(tool, cfg, remote).0.Store(Workspace);
              SubmoduleUrlKey(subs[i].file) in ws && ws[SubmoduleUrlKey(subs[i].file)] == PathJoin(origin.uri.path, subs[i].file)
  {
    RewriteAllSetsUrls(tool, cfg, origin.uri.path, Files(subs));
    forall i | 0 <= i < |subs| ensures subs[i].file in Files(subs) {
      assert Files(subs)[i] == subs[i].file;
    }
  }

  /** A bare origin, assumed or probed, is left alone. */
  lemma FixLeavesBareOrigin(tool: Tool, cfg: ConfigState, remote: string, origin: Origin)
    requires LookupOrigin(tool, cfg, remote) == Ok(Some(origin))
    requires Bareness(tool, origin) == Ok(true)
    ensures Fix(tool, cfg, remote) == (cfg, Pass)
  {
  }

  /** For a local origin the path is probed before its ".git" directory; a
      remote origin is never probed. */
  lemma BarenessOfOrigin(tool: Tool, origin: Origin)
    ensures !IsLocal(origin.uri) ==> Bareness(tool, origin) == Ok(origin.bareByDefault)
    ensures IsLocal(origin.uri) && Decides(tool, origin.uri.path) ==>
              Bareness(tool, origin) == IsBareRepository(tool, origin.uri.path)
    ensures IsLocal(origin.uri) && !Decides(tool, origin.uri.path) && Decides(tool, Some(PathJoin(origin.uri.path, DotGit))) ==>
              Bareness(tool, origin) == IsBareRepository(tool, Some(PathJoin(origin.uri.path, DotGit)))
    ensures IsLocal(origin.uri) && !Decides(tool, origin.uri.path) && !Decides(tool, Some(PathJoin(origin.uri.path, DotGit))) ==>
              Bareness(tool, origin) == Ok(origin.bareByDefault)
  {
    if IsLocal(origin.uri) {
      var check := BareCheck(tool);
      var dotGit := Some(PathJoin(origin.uri.path, DotGit));
      ProbeTwo(check, origin.uri.path, dotGit, origin.bareByDefault);
      assert check(origin.uri.path) == IsBareRepository(tool, origin.uri.path);
      assert check(dotGit) == IsBareRepository(tool, dotGit);
    }
  }

  // ---------------------------------------------------------------------
  // setupSubmoduleUrls
  // ---------------------------------------------------------------------

  /** setupSubmoduleUrls(remote): `submodule init`, `submodule sync`, then the fix. */
  function Setup(tool: Tool, cfg: ConfigState, remote: string): (r: (ConfigState, Outcome))
    ensures Launch(tool, SubmoduleInitArgs()).Err? ==> r == (cfg, Fail(Launch(tool, SubmoduleInitArgs()).error))
    ensures Launch(tool, SubmoduleInitArgs()).Ok? && Launch(tool, SubmoduleSyncArgs()).Err? ==>
              r == (cfg, Fail(Launch(tool, SubmoduleSyncArgs()).error))
    ensures Launch(tool, SubmoduleInitArgs()).Ok? && Launch(tool, SubmoduleSyncArgs()).Ok? ==> r == Fix(tool, cfg, remote)
  {
    match Launch(tool, SubmoduleInitArgs())
    case Err(e) => (cfg, Fail(e))
    case Ok(_) =>
      match Launch(tool, SubmoduleSyncArgs())
      case Err(e) => (cfg, Fail(e))
      case Ok(_) => Fix(tool, cfg, remote)
  }

  /** The remote of a revision's first branch: the text before its first '/'
      as the preferred remote, or the default remote when there is no named
      branch; a branch name without '/' is an error. */
  function RevisionRemote(tool: Tool, rev: Revision): (r: Result<string>)
  {
    if rev.branches == [] || rev.branches[0].name.None? then DefaultRemote(tool, DefaultRemoteName)
    else
      var b := rev.branches[0].name.value;
      var slash := IndexOf(b, '/');
      if slash == -1 then Err(GitException("no remote from branch name (" + b + ")"))
      else DefaultRemote(tool, b[..slash])
  }

  /** The three cases of the remote derivation. */
  lemma RevisionRemoteCases(tool: Tool, rev: Revision, remote: string, rest: string)
    ensures rev.branches == [] || rev.branches[0].name.None? ==>
              RevisionRemote(tool, rev) == DefaultRemote(tool, DefaultRemoteName)
    ensures rev.branches != [] && rev.branches[0].name == Some(remote + "/" + rest) && '/' !in remote ==>
              RevisionRemote(tool, rev) == DefaultRemote(tool, remote)
    ensures rev.branches != [] && rev.branches[0].name.Some? && '/' !in rev.branches[0].name.value ==>
              RevisionRemote(tool, rev) == Err(GitException("no remote from branch name (" + rev.branches[0].name.value + ")"))
  {
    if rev.branches != [] && rev.branches[0].name == Some(remote + "/" + rest) && '/' !in remote {
      var b := remote + "/" + rest;
      assert b[|remote|] == '/';
      assert b[..|remote|] == remote;
      assert IndexOf(b, '/') == |remote|;
    }
  }

  /** setupSubmoduleUrls(revision). */
  function SetupForRevision(tool: Tool, cfg: ConfigState, rev: Revision): (r: (ConfigState, Outcome))
    ensures RevisionRemote(tool, rev).Err? ==> r == (cfg, Fail(RevisionRemote(tool, rev).error))
    ensures RevisionRemote(tool, rev).Ok? ==> r == Setup(tool, cfg, RevisionRemote(tool, rev).value)
  {
    match RevisionRemote(tool, rev)
    case Err(e) => (cfg, Fail(e))
    case Ok(remote) => Setup(tool, cfg, remote)
  }
}
