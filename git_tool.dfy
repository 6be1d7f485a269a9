/** The entities the repository layer handles, and the external `git`
    executable and embedded library it drives, seen as an oracle.

    The oracle is a value of `Tool`: for every argument vector it says how the
    process ended; for every path whether a repository directory is there;
    for every text what `java.net.URI` and `ObjectId.fromString` make of it.
    Nothing is assumed about those answers. */
module GitTool {
  import opened Results
  import opened Text

  /** A commit, tree or blob identifier (`ObjectId`); `name` is its hexadecimal text. */
  datatype ObjectId = ObjectId(name: string)

  /** A branch: its name (which the caller may leave `null`) and the commit it points to. */
  datatype Branch = Branch(name: Option<string>, id: ObjectId)

  /** A revision handed over by the build orchestrator, with the branches that contain it. */
  datatype Revision = Revision(id: ObjectId, branches: seq<Branch>)

  datatype Tag = Tag(name: string, id: ObjectId)

  /** One line of `git ls-tree`: mode, object type, object name and path. */
  datatype IndexEntry = IndexEntry(mode: string, kind: string, objectName: string, file: string)

  /** What `java.net.URI` reports of a parsed URI; each part may be `null`. */
  datatype Uri = Uri(scheme: Option<string>, host: Option<string>, path: Option<string>)

  /** How a launched process ended: its exit status and everything it wrote
      to standard output, or the reason it could not be started. */
  datatype CommandResult = Exited(status: int, output: string) | NotStarted(reason: string)

  /** `FilePath.exists()` on a path under the workspace: an answer, a
      `SecurityException`, or any other exception. */
  datatype ExistsCheck = Found(present: bool) | Denied | CheckFailed

  datatype Tool = Tool(
    gitExe: string,                                // path of the executable, first word of every command
    run: seq<string> -> CommandResult,             // every command except reads of a config store
    pathExists: string -> ExistsCheck,             // the workspace's file system
    parseUri: string -> Option<Uri>,               // java.net.URI; None is a URISyntaxException
    parseObjectId: string -> Option<ObjectId>,     // ObjectId.fromString; None is an invalid id
    resolve: string -> Result<Option<ObjectId>>,   // the embedded library's Repository.resolve
    tags: seq<Tag>)                                // the embedded library's tag map, in its iteration order

  /** JGit's RemoteConfig: a named remote with its URLs and fetch ref-specs.
      It does not define value equality, so two of them are equal only when
      they are the same object. */
  class RemoteConfig {
    const name: string
    const uris: seq<string>
    const fetchRefSpecs: seq<string>

    constructor (name: string, uris: seq<string>, fetchRefSpecs: seq<string>)
      ensures this.name == name && this.uris == uris && this.fetchRefSpecs == fetchRefSpecs
    {
      this.name := name;
      this.uris := uris;
      this.fetchRefSpecs := fetchRefSpecs;
    }
  }

  /** The command line as the layer quotes it in error messages. */
  function CommandLine(tool: Tool, args: seq<string>): string
  {
    Join([tool.gitExe] + args, " ")
  }

  /** What launchCommand makes of a finished (or failed) process: its output
      when the exit status is zero, and otherwise a `GitException` naming the
      command line. */
  function Interpret(tool: Tool, args: seq<string>, answer: CommandResult): (r: Result<string>)
    ensures r.Ok? <==> answer.Exited? && answer.status == 0
    ensures r.Ok? ==> r.value == answer.output
    ensures r.Err? ==> r.error.IsGitException()
  {
    var cmd := CommandLine(tool, args);
    match answer
    case Exited(status, out) =>
      if status == 0 then Ok(out)
      else Err(GitException("Error performing command: " + cmd + "\n"
                            + "Command \"" + cmd + "\" returned status code " + IntToString(status) + ": " + out))
    case NotStarted(reason) =>
      Err(GitException("Error performing command: " + cmd + "\n" + reason))
  }

  /** launchCommand(args) in the workspace. */
  function Launch(tool: Tool, args: seq<string>): (r: Result<string>)
  {
    Interpret(tool, args, tool.run(args))
  }

  /** hasGitRepo(gitDir): whether `gitDir` exists under the workspace; a
      failed check becomes a `GitException` (the messages are the keys of the
      layer's resource bundle). */
  function HasGitRepo(tool: Tool, gitDir: string): (r: Result<bool>)
    ensures r.Ok? <==> tool.pathExists(gitDir).Found?
    ensures r.Ok? ==> r.value == tool.pathExists(gitDir).present
    ensures r.Err? ==> r.error.IsGitException()
  {
    match tool.pathExists(gitDir)
    case Found(b) => Ok(b)
    case Denied => Err(GitException("GitAPI.Repository.SecurityFailureCheckMsg"))
    case CheckFailed => Err(GitException("GitAPI.Repository.FailedCheckMsg"))
  }

  const DotGit := ".git"

  /** verifyGitRepository: a repository directory must be there and the
      embedded library must be bound to it. */
  function VerifyGitRepository(tool: Tool, delegateBound: bool): (r: Outcome)
    ensures r.Pass? <==> HasGitRepo(tool, DotGit) == Ok(true) && delegateBound
    ensures r.Fail? ==> r.error.IsGitException()
  {
    match HasGitRepo(tool, DotGit)
    case Err(e) => Fail(e)
    case Ok(present) =>
      if !present || !delegateBound then Fail(GitException("GitAPI.Repository.InvalidStateMsg")) else Pass
  }
}
