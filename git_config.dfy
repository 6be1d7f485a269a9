/** Configuration reads and writes (GitAPI.java: getSubmoduleUrl,
    setSubmoduleUrl, getRemoteUrl, setRemoteUrl, and their `--git-dir`
    variants).

    Unlike every other command, `git config` reads and writes state that the
    model keeps: the workspace repository's configuration and that of any
    other repository directory named with `--git-dir=`. A read is answered
    from that state the way `git config --get` answers it (the value and a
    line terminator with status 0, or status 1 and no output when the key is
    absent); a write is a launched command that, when it exits with status 0,
    has stored the value. */
module GitConfig {
  import opened Results
  import opened Text
  import opened GitTool
  import opened Queries

  /** Which repository's configuration a command addresses. */
  datatype Scope = Workspace | GitDir(path: string)

  datatype ConfigState = ConfigState(workspace: map<string, string>, others: map<string, map<string, string>>)
  {
    /** The key/value pairs of one repository; a directory never written to has none. */
    function Store(scope: Scope): map<string, string>
    {
      match scope
      case Workspace => workspace
      case GitDir(d) => if d in others then others[d] else map[]
    }

    /** The state after `key` is set to `value` in `scope`. */
    function Put(scope: Scope, key: string, value: string): (c: ConfigState)
      ensures c.Store(scope) == Store(scope)[key := value]
      ensures forall s :: s != scope ==> c.Store(s) == Store(s)
    {
      match scope
      case Workspace => ConfigState(workspace[key := value], others)
      case GitDir(d) => ConfigState(workspace, others[d := Store(scope)[key := value]])
    }
  }

  function ScopeArgs(scope: Scope): seq<string>
  {
    match scope
    case Workspace => []
    case GitDir(d) => ["--git-dir=" + d]
  }

  function GetArgs(scope: Scope, key: string): seq<string> { ScopeArgs(scope) + ["config", "--get", key] }

  function SetArgs(scope: Scope, key: string, value: string): seq<string> { ScopeArgs(scope) + ["config", key, value] }

  function RemoteUrlKey(name: string): string { "remote." + name + ".url" }

  function SubmoduleUrlKey(name: string): string { "submodule." + name + ".url" }

  /** `git config --get key`, answered from the configuration. */
  function ConfigGet(tool: Tool, cfg: ConfigState, scope: Scope, key: string): (r: Result<string>)
    ensures r.Ok? <==> key in cfg.Store(scope)
    ensures r.Ok? ==> r.value == cfg.Store(scope)[key] + "\n"
    ensures r.Err? ==> r.error.IsGitException()
  {
    var answer := if key in cfg.Store(scope) then Exited(0, cfg.Store(scope)[key] + "\n") else Exited(1, "");
    Interpret(tool, GetArgs(scope, key), answer)
  }

  /** `git config key value`: stored when the command succeeds, nothing
      changed and a `GitException` when it fails. */
  function ConfigSet(tool: Tool, cfg: ConfigState, scope: Scope, key: string, value: string): (r: (ConfigState, Outcome))
    ensures r.1.Pass? <==> Launch(tool, SetArgs(scope, key, value)).Ok?
    ensures r.1.Pass? ==> r.0 == cfg.Put(scope, key, value)
    ensures r.1.Fail? ==> r.0 == cfg && r.1.error.IsGitException()
  {
    match Launch(tool, SetArgs(scope, key, value))
    case Ok(_) => (cfg.Put(scope, key, value), Pass)
    case Err(e) => (cfg, Fail(e))
  }

  /** `firstLine(launchCommand(config --get key)).trim()`. */
  function ReadValue(tool: Tool, cfg: ConfigState, scope: Scope, key: string): (r: Result<string>)
  {
    match ConfigGet(tool, cfg, scope, key)
    case Err(e) => Err(e)
    case Ok(out) =>
      match FirstLine(out)
      case Err(e) => Err(e)
      case Ok(None) => Err(NullPointer)
      case Ok(Some(line)) => Ok(Trim(line))
  }

  /** A stored one-line value is read back trimmed; a missing key, or a value
      that spans lines, is a `GitException`: reading never fails otherwise. */
  lemma ReadValueCases(tool: Tool, cfg: ConfigState, scope: Scope, key: string)
    ensures key in cfg.Store(scope) && NoLineBreak(cfg.Store(scope)[key]) ==>
              ReadValue(tool, cfg, scope, key) == Ok(Trim(cfg.Store(scope)[key]))
    ensures key !in cfg.Store(scope) ==> ReadValue(tool, cfg, scope, key).Err?
    ensures ReadValue(tool, cfg, scope, key).Err? ==> ReadValue(tool, cfg, scope, key).error.IsGitException()
  {
    if key in cfg.Store(scope) {
      var v := cfg.Store(scope)[key];
      if NoLineBreak(v) {
        FirstLineOfOneLine(v);
      } else {
        OneLineOfTerminated(v);
      }
    }
  }

  /** A value followed by its terminator is never empty output for firstLine. */
  lemma OneLineOfTerminated(v: string)
    ensures FirstLine(v + "\n") != Ok(None)
  {
    assert (v + "\n") != [];
  }

  /** getSubmoduleUrl(name). */
  function GetSubmoduleUrl(tool: Tool, cfg: ConfigState, name: string): Result<string>
  {
    ReadValue(tool, cfg, Workspace, SubmoduleUrlKey(name))
  }

  /** setSubmoduleUrl(name, url). */
  function SetSubmoduleUrl(tool: Tool, cfg: ConfigState, name: string, url: string): (ConfigState, Outcome)
  {
    ConfigSet(tool, cfg, Workspace, SubmoduleUrlKey(name), url)
  }

  /** getRemoteUrl(name) with `Workspace`, getRemoteUrl(name, GIT_DIR) with `GitDir(GIT_DIR)`. */
  function GetRemoteUrl(tool: Tool, cfg: ConfigState, name: string, scope: Scope): Result<string>
  {
    ReadValue(tool, cfg, scope, RemoteUrlKey(name))
  }

  /** setRemoteUrl(name, url) with `Workspace`, setRemoteUrl(name, url, GIT_DIR) with `GitDir(GIT_DIR)`. */
  function SetRemoteUrl(tool: Tool, cfg: ConfigState, name: string, url: string, scope: Scope): (ConfigState, Outcome)
  {
    ConfigSet(tool, cfg, scope, RemoteUrlKey(name), url)
  }

  /** Setting a remote's URL and reading it back gives the URL, trimmed. */
  lemma SetThenGetRemoteUrl(tool: Tool, cfg: ConfigState, name: string, url: string, scope: Scope)
    requires SetRemoteUrl(tool, cfg, name, url, scope).1.Pass?
    requires NoLineBreak(url)
    ensures GetRemoteUrl(tool, SetRemoteUrl(tool, cfg, name, url, scope).0, name, scope) == Ok(Trim(url))
  {
    ReadValueCases(tool, SetRemoteUrl(tool, cfg, name, url, scope).0, scope, RemoteUrlKey(name));
  }

  /** Setting a submodule's URL and reading it back gives the URL, trimmed. */
  lemma SetThenGetSubmoduleUrl(tool: Tool, cfg: ConfigState, name: string, url: string)
    requires SetSubmoduleUrl(tool, cfg, name, url).1.Pass?
    requires NoLineBreak(url)
    ensures GetSubmoduleUrl(tool, SetSubmoduleUrl(tool, cfg, name, url).0, name) == Ok(Trim(url))
  {
    ReadValueCases(tool, SetSubmoduleUrl(tool, cfg, name, url).0, Workspace, SubmoduleUrlKey(name));
  }

  lemma {:induction false} DotUrlSuffix(a: string, b: string, pa: string, pb: string)
    requires pa + a + ".url" == pb + b + ".url"
    requires pa == pb
    ensures a == b
  {
    var s := pa + a + ".url";
    assert |a| == |b|;
    forall i | 0 <= i < |a| ensures a[i] == b[i] {
      assert s[|pa| + i] == a[i];
      assert (pb + b + ".url")[|pb| + i] == b[i];
    }
  }

  /** Each remote and each submodule has its own key, and a remote's key is
      never a submodule's: writing one leaves every other one as it was. */
  lemma UrlKeysAreDistinct(a: string, b: string)
    ensures RemoteUrlKey(a) == RemoteUrlKey(b) ==> a == b
    ensures SubmoduleUrlKey(a) == SubmoduleUrlKey(b) ==> a == b
    ensures RemoteUrlKey(a) != SubmoduleUrlKey(b)
  {
    if RemoteUrlKey(a) == RemoteUrlKey(b) {
      DotUrlSuffix(a, b, "remote.", "remote.");
    }
    if SubmoduleUrlKey(a) == SubmoduleUrlKey(b) {
      DotUrlSuffix(a, b, "submodule.", "submodule.");
    }
    assert RemoteUrlKey(a)[0] == 'r' && SubmoduleUrlKey(b)[0] == 's';
  }

  /** Writing a submodule URL changes no remote URL, in any repository. */
  lemma SetSubmoduleUrlKeepsRemotes(tool: Tool, cfg: ConfigState, name: string, url: string, remote: string, scope: Scope)
    ensures GetRemoteUrl(tool, SetSubmoduleUrl(tool, cfg, name, url).0, remote, scope) == GetRemoteUrl(tool, cfg, remote, scope)
  {
    UrlKeysAreDistinct(remote, name);
    var c := SetSubmoduleUrl(tool, cfg, name, url).0;
    assert RemoteUrlKey(remote) in c.Store(scope) <==> RemoteUrlKey(remote) in cfg.Store(scope);
    if RemoteUrlKey(remote) in cfg.Store(scope) {
      assert c.Store(scope)[RemoteUrlKey(remote)] == cfg.Store(scope)[RemoteUrlKey(remote)];
    }
  }
}
