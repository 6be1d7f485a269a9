# Git repository layer of the Jenkins Git plugin, in Dafny

This project models the command-line half of the plugin's repository layer
(`GitAPI`) and the pre-build merge options object (`PreBuildMergeOptions`).

`GitAPI` drives the external `git` executable. It builds argument vectors,
launches them in the workspace and turns the textual answers into values.
These values are:

- the single line of `rev-parse`;
- the index entries of `ls-tree` and the gitlinks among them (submodules);
- the object ids of `rev-list`;
- the branches of `branch -a --contains`;
- the tags of `tag -l`;
- the remotes of `git remote`;
- the bareness answer of `rev-parse --is-bare-repository`;
- the merge base.

It reads and writes `git config` entries for remotes and submodules. Its
largest operation, `fixSubmoduleUrls`, does three things in order:

1. It reads the superproject's remote URL.
2. It probes whether that remote is a bare repository.
3. When it is not bare, it rewrites the URL of every submodule so that the
   URL points into the origin. The rewrite covers both the superproject's
   `submodule.<name>.url` and, where the submodule is already checked out,
   the submodule's own `remote.origin.url`.

The layer also derives the author and committer identities from the build
environment.

## How the model is organised

- `GitTool` holds the entities and the **oracle**, a `Tool` value that stands
  for everything outside the layer:
  - what a launched command prints and how it exits;
  - whether a path exists;
  - how `java.net.URI` and `ObjectId.fromString` parse text;
  - what the JGit repository resolves and which tags it lists.

  `Launch` turns a process result into the layer's output or its
  `GitException`, as launchCommandIn does.
- `GitConfig` keeps the one piece of state the layer changes: the
  configuration of the workspace repository and of every other repository
  directory named with `--git-dir=`. A read is answered from that state. A
  write is a launched command that stores the value when it succeeds.
- `Queries`, `Commands`, `Remediation` and `Identity` are pure functions.
  They state what each operation computes, and lemmas about them state what
  the source promises.
- `GitApi.GitApi` is the object. Its loops are `while` loops over the
  command output, as in the Java code, and each one is proved equal to its
  function in `Queries` or `Remediation`. It has two constant fields:
  the oracle (`tool`) and whether the JGit repository is bound
  (`delegateBound`). Its mutable fields are the configuration, which the
  URL-writing methods update, and the `author` and `committer` identities,
  which `ParseEnvVars` sets.
- `MergeOptions.PreBuildMergeOptions` is a class with the two mutable fields
  of the Java object.
- `Results`, `Text` and `Seqs` hold the shared helpers:
  - the error type;
  - Java's `trim()`, `split("\\s+")` and line reading;
  - filtering a sequence.

Java's `null` is `None` of an `Option`. Where the source concatenates a
possibly-null string, it becomes the text `"null"`. Resource-bundle messages
are represented by their keys.

Two behaviours of the code are easy to misread:

- When the superproject's remote URL cannot be read, `fixSubmoduleUrls` does
  not return quietly. Its `catch (Exception e)` rethrows a `GitException`
  with the message "Could determine remote.origin.url" (GitAPI.java:606-607).
- `revParse` on empty output does not return `null`. `ObjectId.fromString`
  is applied to `firstLine(...)`, which is `null` there, so the result is a
  `NullPointerException`. The same holds for `isBareRepository` on empty
  output.

## Model

| member | source | states |
|---|---|---|
| GitTool.Interpret | src/main/java/hudson/plugins/git/GitAPI.java:740-761 | a command's output is returned exactly when it exited with status 0; any other exit, or a failure to start it, is a `GitException` |
| GitTool.HasGitRepo | src/main/java/hudson/plugins/git/GitAPI.java:136-145 | the answer is whether the directory exists; a check that cannot be made is a `GitException` |
| GitTool.VerifyGitRepository | src/main/java/hudson/plugins/git/GitAPI.java:1037-1041 | passes exactly when a `.git` directory exists and the JGit repository is bound; otherwise a `GitException` |
| Queries.FirstLine | src/main/java/hudson/plugins/git/GitAPI.java:288-304 | empty output exactly gives `null`; a returned line has no line break and starts the output; the only failure is "Result has multiple lines" |
| Queries.FirstLineOfOneLine | src/main/java/hudson/plugins/git/GitAPI.java:288-304 | a single line, with or without its terminator, is returned unchanged |
| Queries.FirstLineRejectsSecondLine | src/main/java/hudson/plugins/git/GitAPI.java:288-304 | any text after the first line break, even one more empty line, fails with "Result has multiple lines" |
| Queries.RevParseCases | src/main/java/hudson/plugins/git/GitAPI.java:271-274 | one output line is parsed after `trim()`; a second line is the multiple-lines `GitException`; empty output is a `NullPointerException` |
| Queries.ParseIndexEntry | src/main/java/hudson/plugins/git/GitAPI.java:864-881 | an `ls-tree` line gives an entry exactly when splitting on whitespace yields at least four fields, and the entry is the first four in order; otherwise index out of bounds |
| Queries.ParseLsTree | src/main/java/hudson/plugins/git/GitAPI.java:864-881 | one entry per line, in order, each the parse of its line; fails exactly when some line fails |
| Queries.ParseFormattedEntry | src/main/java/hudson/plugins/git/GitAPI.java:864-881 | parsing the line `ls-tree` prints for an entry without whitespace in its fields gives back that entry |
| Queries.ParseTruncatesPathAtWhitespace | src/main/java/hudson/plugins/git/GitAPI.java:864-881 | a path containing whitespace is cut at its first whitespace character; the text after it is dropped |
| Queries.LsTreeRoundTrip | src/main/java/hudson/plugins/git/GitAPI.java:864-881 | formatting entries as a listing and reading the listing back gives the same entries in the same order |
| Queries.SubmodulesAreTheGitlinks | src/main/java/hudson/plugins/git/GitAPI.java:159-169 | getSubmodules fails exactly when lsTree fails; otherwise it keeps every entry of mode 160000 as often as lsTree lists it, drops every other entry, and keeps lsTree's order |
| Queries.ClassifiesGitlinks | src/main/java/hudson/plugins/git/GitAPI.java:159-169 | a `160000 commit` line is parsed as a submodule and a `100644 blob` line is not |
| Queries.ParseObjectIds | src/main/java/hudson/plugins/git/GitAPI.java:891-909 | one object id per output line, in order; fails exactly when some line is not a valid id |
| Queries.ParseBranchesReportsNames | src/main/java/hudson/plugins/git/GitAPI.java:776-799 | on success every line carried its two-character marker, and the branches are the marker-stripped lines that neither start with `(` nor contain ` -> `, in order, each with the id `rev-parse` gives its name |
| Queries.ParseBranchesSucceeds | src/main/java/hudson/plugins/git/GitAPI.java:776-799 | when every line is marked and every reported name resolves, parsing succeeds |
| Queries.TagNames | src/main/java/hudson/plugins/git/GitAPI.java:1017-1035 | the set of listed lines; any failure of the command becomes the one "Error retrieving tag names" `GitException` |
| Queries.ChooseRemote | src/main/java/hudson/plugins/git/GitAPI.java:498-522 | "No remotes found!" exactly for an empty list; otherwise a listed remote, which is the preferred one if it is listed and the first one if not |
| Queries.IsBareRepository | src/main/java/hudson/plugins/git/GitAPI.java:539-563 | "not bare" only when the command succeeded with one line whose trimmed text is `false`; a failure that is not a `GitException` is the null pointer of empty output |
| Queries.IsBareReadsAnswer | src/main/java/hudson/plugins/git/GitAPI.java:549-563 | for one answer line, the repository is bare exactly when the trimmed answer is not `false` |
| Queries.MergeBase | src/main/java/hudson/plugins/git/GitAPI.java:968-990 | a failed command or empty output means there is no merge base; when the first output line parses, the base is that id; the result is an error exactly when the first line does not parse, and that error is "Error parsing merge base" |
| Queries.TagsOnCommit | src/main/java/hudson/plugins/git/GitAPI.java:1001-1015 | succeeds exactly on a valid repository whose revision resolves; otherwise fails with the repository check's error or the resolution's error; no tags for an unknown revision; otherwise the repository's tags that point at the resolved id, in the repository's order, each as often as listed |
| GitConfig.ConfigGet | src/main/java/hudson/plugins/git/GitAPI.java:426-429 | a read succeeds exactly when the key is stored, with its value and a line terminator; a missing key is a `GitException` |
| GitConfig.ConfigSet | src/main/java/hudson/plugins/git/GitAPI.java:438-440 | a write stores the value exactly when the command succeeds and leaves the configuration untouched when it fails |
| GitConfig.ReadValueCases | src/main/java/hudson/plugins/git/GitAPI.java:448-451 | a stored one-line value is read back trimmed; a missing key fails; every failure is a `GitException` |
| GitConfig.SetThenGetRemoteUrl | src/main/java/hudson/plugins/git/GitAPI.java:448-489 | after a successful setRemoteUrl, getRemoteUrl in the same repository returns the URL, trimmed |
| GitConfig.SetThenGetSubmoduleUrl | src/main/java/hudson/plugins/git/GitAPI.java:426-440 | after a successful setSubmoduleUrl, getSubmoduleUrl returns the URL, trimmed |
| GitConfig.UrlKeysAreDistinct | src/main/java/hudson/plugins/git/GitAPI.java:426-462 | distinct remotes have distinct keys, distinct submodules have distinct keys, and a remote's key is never a submodule's |
| GitConfig.SetSubmoduleUrlKeepsRemotes | src/main/java/hudson/plugins/git/GitAPI.java:438-451 | writing a submodule URL changes no remote URL in any repository |
| Commands.NormalizeTagName | src/main/java/hudson/plugins/git/GitAPI.java:703-710 | the name keeps its length, has no spaces, and has each space replaced by `_` with every other character kept |
| Commands.SameTagName | src/main/java/hudson/plugins/git/GitAPI.java:703-710 | two names address the same tag exactly when they differ only in spaces against underscores |
| Commands.NormalizeTagNameIdempotent | src/main/java/hudson/plugins/git/GitAPI.java:841-862 | normalising a normalised name changes nothing |
| Commands.Tag | src/main/java/hudson/plugins/git/GitAPI.java:703-710 | succeeds exactly when `tag -a -f -m` succeeds; a failure is "Could not apply tag" with the normalised name |
| Commands.TagExists | src/main/java/hudson/plugins/git/GitAPI.java:841-844 | true exactly when the trimmed listing equals the normalised name; the command's failure is passed on |
| Commands.DeleteTag | src/main/java/hudson/plugins/git/GitAPI.java:855-862 | succeeds exactly when `tag -d` succeeds; a failure is "Could not delete tag" with the normalised name |
| Commands.TagOperationsAgree | src/main/java/hudson/plugins/git/GitAPI.java:703-710 | tag, tagExists and deleteTag address one and the same space-free name |
| Commands.TagExistsWhenListed | src/main/java/hudson/plugins/git/GitAPI.java:841-844 | a listing of exactly the normalised name means the tag exists |
| Commands.TagExistsNotWhenOthersListed | src/main/java/hudson/plugins/git/GitAPI.java:841-844 | a listing that also names another tag means `false` |
| Commands.FetchArgs | src/main/java/hudson/plugins/git/GitAPI.java:175-191 | `fetch -t`, then the repository if any, then the refspec only when a repository was given |
| Commands.FetchRemote | src/main/java/hudson/plugins/git/GitAPI.java:961-966 | fetches the remote's first URL with its first refspec; a remote lacking either is index out of bounds |
| Commands.ResetArgs | src/main/java/hudson/plugins/git/GitAPI.java:193-207 | exactly `reset`, or `reset --hard` for a hard reset |
| Commands.Clean | src/main/java/hudson/plugins/git/GitAPI.java:254-269 | succeeds exactly when the repository is valid, the hard reset succeeds and `clean -dfx` succeeds; an invalid repository is reported before anything runs |
| Commands.SubmoduleUpdateArgs | src/main/java/hudson/plugins/git/GitAPI.java:393-401 | exactly `submodule update`, or `submodule update --init --recursive` when recursive |
| Commands.SubmoduleCleanArgs | src/main/java/hudson/plugins/git/GitAPI.java:409-418 | exactly `submodule foreach`, then `--recursive` when recursive, then `git clean -fdx` as one argument: three or four arguments |
| Commands.PushArgs | src/main/java/hudson/plugins/git/GitAPI.java:763-774 | `push` to the remote's first URL, then the refspec when given; a remote without URLs is index out of bounds |
| Identity.BuildPersonIdent | src/main/java/hudson/plugins/git/GitAPI.java:1079-1089 | an identity exactly when the environment exists and both variables are set and not blank, made of their values |
| Identity.BlankValueGivesNoIdent | src/main/java/hudson/plugins/git/GitAPI.java:1079-1089 | a whitespace-only name or email gives no identity |
| Identity.IdentitiesFrom | src/main/java/hudson/plugins/git/GitAPI.java:1065-1069 | both identities are recomputed from the author and the committer variables |
| Identity.IdentitiesAreIndependent | src/main/java/hudson/plugins/git/GitAPI.java:1065-1069 | changing any variable other than the author's two leaves the author alone, and likewise for the committer |
| Remediation.NormalizePath | src/main/java/hudson/plugins/git/GitAPI.java:565-567 | the result is a normal path (no doubled or trailing separator), empty exactly when the input is |
| Remediation.NormalizeKeepsNormal | src/main/java/hudson/plugins/git/GitAPI.java:565-567 | a normal path is left unchanged, so normalising is idempotent |
| Remediation.JoinUnderDirectory | src/main/java/hudson/plugins/git/GitAPI.java:565-567 | joining a relative name under a directory is directory, `/`, name; under `null` it is the name |
| Remediation.GitSuffixIsJoin | src/main/java/hudson/plugins/git/GitAPI.java:592-593 | `pathJoin("", ".git")` is `/.git` |
| Remediation.StripGitSuffix | src/main/java/hudson/plugins/git/GitAPI.java:592-598 | the URL loses its trailing `/.git` exactly when it has one, and the flag says so |
| Remediation.LookupOrigin | src/main/java/hudson/plugins/git/GitAPI.java:587-608 | fails with "Could determine remote.origin.url" exactly when the URL cannot be read; an unparsable URL ends the fix; otherwise the parsed stripped URL, non-bare by default exactly when `/.git` was stripped |
| Remediation.Probe | src/main/java/hudson/plugins/git/GitAPI.java:617-628 | when no probe gives an answer other than a `GitException`, the assumed bareness stands |
| Remediation.ProbeFirstDecides | src/main/java/hudson/plugins/git/GitAPI.java:617-628 | the first probe whose answer is not a `GitException` gives the loop's result, and later paths are not consulted |
| Remediation.BarenessOfOrigin | src/main/java/hudson/plugins/git/GitAPI.java:610-629 | a remote origin keeps its default; a local one is probed at its path, then at its `.git` directory, then keeps its default |
| Remediation.RewriteOneEffect | src/main/java/hudson/plugins/git/GitAPI.java:633-649 | one pass writes only its own submodule's URL and that submodule's own origin URL, fails only with a `GitException`, and on success has set the submodule URL to the joined origin path |
| Remediation.RewriteOriginCases | src/main/java/hudson/plugins/git/GitAPI.java:641-648 | the submodule's own origin URL is written only when its `.git` exists, its current origin URL is non-empty and the set command succeeds; otherwise the configuration is kept |
| Remediation.RewriteOneWrites | src/main/java/hudson/plugins/git/GitAPI.java:633-649 | a failed workspace write changes nothing; otherwise the submodule URL is written, and the submodule's origin URL too exactly under the condition above, judged on the configuration before the pass |
| Remediation.RewriteAllConcat | src/main/java/hudson/plugins/git/GitAPI.java:633-650 | the loop over two lists is the loop over the first, then, if it passed, the loop over the second from where it stopped |
| Remediation.RewriteAllKeepsEarlierUrls | src/main/java/hudson/plugins/git/GitAPI.java:633-650 | when the loop stops at a failure, every submodule whose pass completed earlier, and that no later pass touches, keeps its rewritten URL |
| Remediation.RewriteAllFrame | src/main/java/hudson/plugins/git/GitAPI.java:633-650 | the loop writes only entries of the listed submodules and fails only with a `GitException` |
| Remediation.RewriteAllSetsUrls | src/main/java/hudson/plugins/git/GitAPI.java:633-650 | when the loop completes, every listed submodule's URL is the origin path joined with its file |
| Remediation.FixAbortsEarly | src/main/java/hudson/plugins/git/GitAPI.java:587-608 | an unreadable remote URL fails and an unparsable one passes, both without changing the configuration |
| Remediation.FixFrame | src/main/java/hudson/plugins/git/GitAPI.java:584-662 | a failure changes nothing; any change means the origin was found not bare, the submodules were listed, and only their entries were written |
| Remediation.FixSwallowsLoopFailures | src/main/java/hudson/plugins/git/GitAPI.java:631-653 | once a non-bare origin's submodules are listed, the fix passes even when the loop fails, and keeps the loop's writes |
| Remediation.FixListingFailure | src/main/java/hudson/plugins/git/GitAPI.java:631-653 | a submodule listing that fails with a `GitException` ends the fix with success; any other failure is returned; nothing is written |
| Remediation.FixKeepsRemoteUrls | src/main/java/hudson/plugins/git/GitAPI.java:584-662 | the superproject's remote URLs are never changed |
| Remediation.FixRewritesSubmoduleUrls | src/main/java/hudson/plugins/git/GitAPI.java:631-652 | for a non-bare origin whose loop completes, every submodule's URL reads back as the origin path joined with its file |
| Remediation.FixLeavesBareOrigin | src/main/java/hudson/plugins/git/GitAPI.java:654-661 | a bare origin leaves the configuration as it was and passes |
| Remediation.Setup | src/main/java/hudson/plugins/git/GitAPI.java:693-701 | `submodule init`, then `submodule sync`, then the fix, each only after the previous one succeeded |
| Remediation.RevisionRemoteCases | src/main/java/hudson/plugins/git/GitAPI.java:668-691 | no branch or an unnamed one uses the default remote; a name with a slash chooses among the remotes by its prefix; a name without one is a "no remote from branch name" `GitException` |
| Remediation.SetupForRevision | src/main/java/hudson/plugins/git/GitAPI.java:668-691 | a revision whose remote cannot be derived fails unchanged; otherwise it is the setup for that remote |
| GitApi.GitApi.constructor | src/main/java/hudson/plugins/git/GitAPI.java:81-96 | a new object has no author or committer and the given tool and configuration |
| GitApi.GitApi.LsTree | src/main/java/hudson/plugins/git/GitAPI.java:864-881 | the line loop returns the lsTree of the listing |
| GitApi.GitApi.GetSubmodules | src/main/java/hudson/plugins/git/GitAPI.java:159-169 | the in-place removal loop leaves exactly the gitlinks of lsTree |
| GitApi.GitApi.RevList | src/main/java/hudson/plugins/git/GitAPI.java:891-909 | the line loop returns the object ids of the listing |
| GitApi.GitApi.ParseBranchesOf | src/main/java/hudson/plugins/git/GitAPI.java:776-799 | the line loop returns parseBranches of the output's lines |
| GitApi.GitApi.GetBranchesContaining | src/main/java/hudson/plugins/git/GitAPI.java:813-816 | the branches that contain the revision, as parsed from `branch -a --contains` |
| GitApi.GitApi.GetTagNames | src/main/java/hudson/plugins/git/GitAPI.java:1017-1035 | the set-building loop returns the set of listed tag names |
| GitApi.GitApi.GetDefaultRemote | src/main/java/hudson/plugins/git/GitAPI.java:498-522 | the loop over `git remote` returns the chosen remote |
| GitApi.GitApi.GetTagsOnCommit | src/main/java/hudson/plugins/git/GitAPI.java:1001-1015 | the loop over the repository's tags returns those on the resolved commit |
| GitApi.GitApi.SetSubmoduleUrl | src/main/java/hudson/plugins/git/GitAPI.java:438-440 | the configuration becomes the result of the write; the identities are unchanged |
| GitApi.GitApi.SetRemoteUrl | src/main/java/hudson/plugins/git/GitAPI.java:460-489 | the configuration becomes the result of the write in the addressed repository; the identities are unchanged |
| GitApi.GitApi.DetectBareness | src/main/java/hudson/plugins/git/GitAPI.java:610-629 | the probe loop with its early exit returns the bareness of the origin |
| GitApi.GitApi.RewriteSubmoduleUrls | src/main/java/hudson/plugins/git/GitAPI.java:631-652 | the rewrite loop leaves the configuration and outcome of the rewrite of all submodule files |
| GitApi.GitApi.FixSubmoduleUrls | src/main/java/hudson/plugins/git/GitAPI.java:584-662 | the configuration and outcome are those of the fix |
| GitApi.GitApi.SetupSubmoduleUrls | src/main/java/hudson/plugins/git/GitAPI.java:693-701 | the configuration and outcome are those of the setup for the remote |
| GitApi.GitApi.SetupSubmoduleUrlsForRevision | src/main/java/hudson/plugins/git/GitAPI.java:668-691 | the configuration and outcome are those of the setup for the revision's remote |
| GitApi.GitApi.ParseEnvVars | src/main/java/hudson/plugins/git/GitAPI.java:1065-1069 | author and committer become the identities the environment gives; the configuration is unchanged |
| MergeOptions.PreBuildMergeOptions.constructor | src/main/java/hudson/plugins/git/opt/PreBuildMergeOptions.java:43-48 | both fields start out null, so no merge is asked for |
| MergeOptions.PreBuildMergeOptions.SetMergeRemote | src/main/java/hudson/plugins/git/opt/PreBuildMergeOptions.java:50-56 | the getter returns the remote just set and the target is unchanged |
| MergeOptions.PreBuildMergeOptions.SetMergeTarget | src/main/java/hudson/plugins/git/opt/PreBuildMergeOptions.java:58-64 | the getter returns the target just set, the remote is unchanged, and a merge is asked for exactly when the target is not null |
| MergeOptions.PreBuildMergeOptions.DoMerge | src/main/java/hudson/plugins/git/opt/PreBuildMergeOptions.java:70-72 | true exactly when the target is not null |
| MergeOptions.PreBuildMergeOptions.GetRemoteBranchName | src/main/java/hudson/plugins/git/opt/PreBuildMergeOptions.java:66-68 | a null pointer exactly when there is no remote; otherwise the remote's name, then `/`, then the target (`null` when unset) |
| MergeOptions.RemoteBranchNameSplits | src/main/java/hudson/plugins/git/opt/PreBuildMergeOptions.java:66-68 | for a remote name without `/`, splitting the branch name at its first `/` gives back the remote name and the target (`null` when unset) |
| MergeOptions.EqualsCases | src/main/java/hudson/plugins/git/opt/PreBuildMergeOptions.java:75-89 | false for null and for another class; between two options objects, true exactly when they have the same remote object and equal targets |
| MergeOptions.EqualsIsEquivalence | src/main/java/hudson/plugins/git/opt/PreBuildMergeOptions.java:75-89 | equals is reflexive, symmetric and transitive |
| MergeOptions.EqualOptionsMergeAlike | src/main/java/hudson/plugins/git/opt/PreBuildMergeOptions.java:66-89 | equal options agree on whether to merge and on the remote branch name |

## Left out

- Process execution, streaming and the working directory: launchCommandIn is modelled only through what it makes of a process result. `whatchanged`, `changelog`, `showRevision`, `merge`, `describe`, `prune` and `checkout` are not part of this model.
- JGit-backed operations (`init`, `clone`, `getBranches`, `getRemoteBranches`, `checkoutBranch`, `deleteBranch`, `add`, `branch`, `commit`, `isCommitInRepo`, `parseRefList`) are foreign library calls. The constructor's repository wrapping is reduced to a given flag, `delegateBound`. The repository's resolution of names and its tag list are oracle values, as are the `IOException`s they may throw.
- Filesystem checks, `java.net.URI` parsing and `ObjectId.fromString` are oracle functions.
- The effects of `submodule init`, `submodule sync` and `submodule update` on the configuration are not modelled. The commands are launched and their outcome is propagated.
- The platform separator is fixed to `/`.
- Logging and all `TaskListener` output are left out.
- `hashCode` and `Serializable` in PreBuildMergeOptions come from a foreign library.
- `EnvVars`' case-insensitive keys are not modelled. The environment is a map with exact keys.
- Remediation.IsLocal: the case-insensitive comparison with `file` folds ASCII letters only, not all of Unicode.
- GitConfig.ConfigGet: `git config --get` is modelled as one stored value per key. Multi-valued keys and includes are not modelled. A read consults only the addressed repository's own configuration, not the global or system configuration files that `git config --get` also reads.
- A `null` directory passed to getRemoteUrl(name, GIT_DIR) is the text `null` after concatenation. The model passes it as the directory named `null`.
- Identity.BuildPersonIdent: JGit's `PersonIdent(name, email)` also records the current time and time zone; the clock is left out, so an identity is only its name and email.
- Queries.MergeBase: a `null` id (a `NullPointerException` from `id1.name()`, which the source's `catch (Exception e)` turns into "Error parsing merge base") cannot be passed, because an object id in the model is never null.
- Queries.TagsOnCommit: a tag reference without an object id (a `NullPointerException` in the source) is not modelled; every tag has an id.
- The `IOException` branches of the line readers are left out, because reading lines from a string cannot fail.
- GitConstants.java is not part of this model. The environment variable names are the ones `git` itself reads.
