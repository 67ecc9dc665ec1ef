# dotman, modelled in Dafny

dotman keeps dotfiles in one managed folder (a git work tree). It moves a
file into the folder and leaves a symbolic link where the file was. It
records every managed file in a JSON manifest (`info.json`), which holds the
link location, the managed path, a status and a list of errors. It checks
that the links are healthy, and it synchronises the folder with its remote
through git. `init` prepares a folder on a new machine: it creates the
folder, initialises or reconciles the git remote, and recreates the links
that the manifest lists.

This project models that core and proves properties of it:

| module (file) | models |
|---|---|
| `GoStrings` (gostrings.dfy) | the parts of Go's `strings` package the program uses: TrimSpace, Split, ToLower, Index, SplitN |
| `Paths` (paths.dfy) | `ResolvePath`, `ShrinkPath` and the `filepath` functions they rely on |
| `Remotes` (remotes.dfy) | `NormaliseRepoURL`, `NormaliseRepoSuffix`, `SameSuffix`, `SamePrefix` |
| `UserInput` (user_input.dfy) | `ConfirmWithUser`, answered by the `MockUserInput` of the test utilities (a class with the `index` it advances) |
| `Entries` (entries.dfy) | the manifest record `FileInfo` |
| `FileSystem` (filesystem.dfy) | the disk as a map from absolute path to node (file, link or directory); `FileExist`, `FolderExist`, `IsSymlink`, `FollowSymlink`, `CreateFolder`, `CreateSymlink`; the `os` calls as changes that succeed or are refused; the class `Disk` whose methods apply them |
| `Git` (git.dfy) | the git commands, a scripted git (`GitPort`: replies in order, commands recorded), `ListChanges`, `GetRemoteURL` |
| `Manifests` (manifest.dfy) | `ReadFile`, `SaveStatus`, `AddFiles`, `RemoveFiles` |
| `Status` (status.dfy) | `CheckStatus` with `checkSymlink`, `checkPath`, `checkSamePath` |
| `Relocation` (relocation.dfy) | `AddFile` and `RemoveFile` |
| `Sync` (sync.dfy) | `SyncRepo` |
| `Setup` (setup.dfy) | `Init`, `checkRemote`, `addSymlinks` |

Every step that changes state is a method over the `Disk`, the `GitPort` and
the `MockUserInput`. Each such method is proved equal to a pure plan
function of the old state. Examples: `Relocation.AddFileEffect`,
`Sync.SyncPlan` and `Setup.InitPlan`. The plan gives the outcome, the new
tree, the git commands in order, the unused replies and the unanswered
prompts. The lemmas state what the program promises about those plans.

The home directory and the working directory are parameters, in place of
`os.UserHomeDir` and the process state. The environment's refusals are a set
of `(call, path)` pairs: permissions, a full disk, a cross-device rename.
git's exit codes, outputs and writes into the folder come from the script,
and a used-up script stands for git not starting (code -1). The user's
answers come from the mock, which says "n" once its responses run out.

A typed line is classified by comparing its scanned token with "y", "Y", "n"
and "N" (`UserInput.Classify`). `UserInput.ClassifyAsScanned` proves that this
agrees with the code's `strings.ToLower(strings.TrimSpace(token))` compared
with "y" and "n". The loop in `UserInput.ConfirmWithUser` keeps the code's
own form.

Where the code and the program's documented behaviour (comments, tests,
flag help) disagree, the model follows the code:
- `AddFile` has no `force` mode and no "already linked" check. An occupied
  destination is always refused.
- `RemoveFile` takes the link's path, not a manifest id. It checks that the
  target exists, but not that the target equals a recorded path, and it
  does not touch the manifest.
- The status check never turns an entry into "Ok". An entry without
  problems keeps its previous status (see Findings).
- The status check records at most two problems per entry, not three. A
  mismatch is only looked for when both locations exist
  (`Status.DiagnoseMeaning`).
- `SaveStatus` writes paths as it is given them. The status check
  therefore writes resolved absolute paths back, not `~` forms. `AddFiles`
  and `RemoveFiles` do the same: they read the manifest through `ReadFile`,
  which resolves every entry, so stored `~` paths are rewritten in absolute
  form (`Manifests.AddFilesMerges`, `Manifests.RemoveFilesDeletes`).

## Model

| member | source | states |
|---|---|---|
| Entries.ResolveEntry | internal/files/json_files.go:47-59 | resolving an entry keeps its status and errors, leaves absolute paths as they are and makes both paths absolute under an absolute home |
| Entries.ResolveAll | internal/files/json_files.go:47-62 | ReadFile's loop keeps the keys and replaces every entry by its resolved form |
| Entries.ResolveAllIdempotent | internal/files/json_files.go:47-62 | a resolved manifest has absolute paths only, and resolving it again changes nothing |
| FileSystem.Walk | internal/helpers.go:15-27 | os.Stat's resolution, which FileExist and FolderExist rest on: a path not in the tree is missing; a stored file or directory is found where it is; a missing result names a path not in the tree; a found node is stored at the path reported and is never a link, so the links on the way were followed |
| FileSystem.FileExist | internal/helpers.go:15-18 | true only for a path that holds something, and always for a file or directory stored there |
| FileSystem.DanglingLinkDoesNotExist | internal/helpers.go:15-18 | a link whose target is absent counts as not existing, because Stat follows it |
| FileSystem.FolderExist | internal/helpers.go:20-27 | a folder that exists also exists for FileExist |
| FileSystem.IsSymlink | internal/helpers.go:133-140 | Lstat fails exactly when nothing is at the path; otherwise the answer is whether a link is stored there |
| FileSystem.FollowSymlink | internal/helpers.go:142-149 | Readlink succeeds exactly on a link and returns its stored target verbatim |
| FileSystem.LinkReadsThrough | internal/helpers.go:142-149 | a link holding an absolute file path reads back that path and that file's content |
| FileSystem.MkdirAllOnlyAddsDirs | internal/helpers.go:29-35 | MkdirAll keeps every node, adds only directories, and on success the folder is there |
| FileSystem.AddDirKeepsOnlyDirs | internal/helpers.go:29-35 | adding one more directory where nothing is keeps the "only adds directories" relation |
| FileSystem.Disk.MkdirAll | internal/helpers.go:29-35 | CreateFolder applies MkdirAll to the disk, or reports the refusal and leaves the disk alone |
| FileSystem.MkdirAllChange | internal/helpers.go:29-35 | os.MkdirAll leaves an existing folder alone, and on success the folder is there |
| FileSystem.SymlinkChange | internal/helpers.go:37-43 | a new link holding the target verbatim, and only where nothing is |
| FileSystem.Disk.Symlink | internal/helpers.go:37-43 | CreateSymlink applies the link creation to the disk, or reports the refusal with the disk unchanged |
| FileSystem.RenameChange | internal/manager/add.go:30-34 | a rename moves the node from the source to the destination and changes nothing else |
| FileSystem.RenameOntoDirectory | internal/manager/add.go:30-34 | as in Go's os.Rename, an existing directory at the destination is refused with "file exists" before anything is moved |
| FileSystem.Disk.Rename | internal/manager/add.go:30-34 | os.Rename on the disk; a refusal leaves the disk unchanged |
| FileSystem.RemoveChange | internal/manager/remove.go:35-38 | os.Remove deletes exactly the node at the path (a link, not its target) |
| FileSystem.Disk.Remove | internal/manager/remove.go:35-38 | os.Remove on the disk; a refusal leaves the disk unchanged |
| FileSystem.ReadChange | internal/files/json_files.go:36-39 | os.ReadFile succeeds only on a path that exists, and fails with "does not exist" otherwise |
| FileSystem.WriteChange | internal/files/json_files.go:26-29 | writing at a folder or through a link cycle is refused; on success the file, with the new content, is stored where the path's links lead and nothing else changes |
| FileSystem.Disk.WriteFile | internal/files/json_files.go:27-29 | os.WriteFile on the disk; a refusal leaves the disk unchanged |
| FileSystem.Disk.Absorb | internal/manager/init.go:27-59 | what git wrote into the folder replaces the nodes at those paths, and every other node is kept |
| FileSystem.WriteThenRead | internal/files/json_files.go:27-39 | reading a file right after writing it gives back what was written, links followed |
| GoStrings.TrimSpace | internal/git/git.go:56 | the result is empty exactly when the input is all white space, and otherwise starts and ends with something else |
| GoStrings.TrimSpaceCutsEnds | internal/git/git.go:56 | the result is the input with a blank prefix and a blank suffix cut off |
| GoStrings.ToLower | internal/helpers.go:54 | the same length, each ASCII letter lowered |
| GoStrings.Split | internal/git/git.go:23 | one more piece than separators, no piece holds a separator, and joining the pieces gives the input back |
| GoStrings.IndexOf | internal/helpers.go:70 | the first occurrence of the separator, or none at all |
| GoStrings.AfterFirst | internal/helpers.go:70-72 | the second piece of SplitN(s, sep, 2) exists exactly when sep occurs, and is then what follows the first occurrence |
| Paths.DirOfJoin | internal/manager/add.go:13-14 | the destination of AddFile is the folder, a separator and the base name; its directory is the folder and its base is the name |
| Paths.JoinPlain | internal/manager/add.go:14 | joining a folder without a trailing separator and a plain name puts exactly one separator between them |
| Paths.DirOfSlashed | internal/manager/add.go:13-14 | the directory of folder/name is the folder |
| Paths.BaseOfSlashed | internal/manager/add.go:13-14 | the base of folder/name is the name |
| Paths.ResolvePath | internal/helpers.go:107-118 | an absolute input is returned unchanged, and under an absolute home the result is always absolute |
| Paths.ResolvePathIdempotent | internal/helpers.go:107-118 | resolving an already resolved path changes nothing |
| Paths.ResolvePathUnderHome | internal/helpers.go:107-118 | "~" is home, "~/rel" and "rel" are home/rel |
| Paths.ShrinkPath | internal/helpers.go:120-131 | the path is unchanged, or its leading home is replaced by "~" |
| Paths.ShrinkPathRoundTrip | internal/helpers.go:120-131 | for home itself and every clean path below home, resolving the shrunk path gives the path back |
| Paths.ShrinkPathSiblingBreaksRoundTrip | internal/helpers.go:126-127 | a sibling of home whose name starts with home's name is shrunk too, and resolves to a different path |
| Paths.ShrinkSibling | internal/helpers.go:126-127 | for every home and every continuation of its last name, the sibling is shrunk to "~" and the continuation, which resolves to a path below home, not to the sibling |
| Paths.ShrinkPathWithinHome | internal/helpers.go:120-131 | the corrected shrink leaves the path alone or gives a "~" form |
| Paths.ShrinkPathWithinHomeRoundTrip | internal/helpers.go:120-131 | for every clean absolute path, resolving the corrected shrink gives the path back |
| Remotes.NormaliseRepoURL | internal/helpers.go:68-82 | the URL comes back unchanged or in one of GitHub's two forms, and unchanged when it starts with neither "git@" nor "https:" |
| Remotes.NormaliseSshUrl | internal/helpers.go:69-73 | any "git@HOST:REPO" becomes GitHub's HTTPS form of REPO |
| Remotes.NormaliseHttpsUrl | internal/helpers.go:74-78 | GitHub's HTTPS form of REPO becomes its SSH form |
| Remotes.NormaliseRepoURLInvolution | internal/helpers.go:68-82 | on GitHub's two forms, normalising twice gives the URL back |
| Remotes.NormaliseRepoURLUnchanged | internal/helpers.go:68-82 | URLs with neither prefix, "git@" without a colon and "https:" without GitHub's prefix are returned unchanged |
| Remotes.NormaliseRepoSuffix | internal/helpers.go:84-92 | one trailing ".git" is removed, or ".git" is appended when there is none |
| Remotes.NormaliseRepoSuffixTwice | internal/helpers.go:84-92 | toggling twice gives the URL back exactly when it does not end in ".git.git" |
| Remotes.SameSuffix | internal/helpers.go:94-96 | true only when both URLs end in the same four characters, and false whenever neither ends in ".git" |
| Remotes.CommonPrefixLength | internal/helpers.go:98-105 | the two strings agree up to that length and differ just after it |
| Remotes.CommonPrefixLengthSymmetric | internal/helpers.go:98-105 | the common prefix does not depend on argument order |
| Remotes.SamePrefix | internal/helpers.go:98-105 | the loop's verdict is a non-empty common prefix, that is, both strings non-empty with the same first character |
| UserInput.MockUserInput.Pending | internal/testutils/testutils.go:120-123 | the responses not handed out yet, in order |
| UserInput.MockUserInput.constructor | internal/testutils/testutils.go:125-130 | a new mock starts at its first response |
| UserInput.MockUserInput.GetResponse | internal/testutils/testutils.go:132-139 | the next response with the index advanced, or "n" with the index kept once the responses are used up |
| UserInput.ScanToken | internal/helpers.go:48-53 | Scanln yields the line's single token, or an error for a line with no token or more than one |
| UserInput.TrimToken | internal/helpers.go:48-54 | a scanned token has no surrounding space, so TrimSpace returns it unchanged |
| UserInput.LowerToken | internal/helpers.go:54-55 | ToLower(TrimSpace(token)) is a lower-case letter exactly when the token is that letter in either case |
| UserInput.ClassifyAsScanned | internal/helpers.go:48-58 | a line is taken as the loop takes it: a read error when Scanln fails, otherwise yes or no exactly when the trimmed, lower-cased token is "y" or "n", and asked again for anything else |
| UserInput.Classify | internal/helpers.go:48-63 | a line is a read error, which answers no, exactly when Scanln finds no single token in it |
| UserInput.Prompt | internal/helpers.go:46-65 | the prompt reads at least one line when there is one, and never more lines than there are |
| UserInput.Classified | internal/helpers.go:46-59 | one answer per pending response |
| UserInput.ClassifiedAt | internal/helpers.go:46-59 | each pending response is taken by its own class, in order |
| UserInput.PromptIsFirstDecisiveAnswer | internal/helpers.go:46-65 | yes exactly when the first line that is not asked again reads y; the prompt reads up to and including that line, and every line, with no, when there is none |
| UserInput.Confirm | internal/helpers.go:44-66 | a prompt consumes a prefix of the pending responses |
| UserInput.DefaultAnswerIsNo | internal/helpers.go:55-64 | the mock's fallback "n" answers no, and "y" or "Y" answers yes |
| UserInput.ConfirmIsFirstDecisiveAnswer | internal/helpers.go:44-66 | the prompt says yes exactly when the first response that is not re-asked reads y; it consumes up to that response, and all of them when there is none |
| UserInput.AnswerStep | internal/helpers.go:46-59 | an unclear line asks again over the remaining responses; any other line settles the prompt, yes exactly for y, and the used-up mock answers no |
| UserInput.ConfirmWithUser | internal/helpers.go:44-66 | the loop's answer and the responses it leaves are those of Confirm |
| Git.Args | internal/git/git.go:10-77 | every command runs as "git -C folder ..." |
| Git.NextReply | internal/helpers.go:157-172 | the next scripted reply, or a failed start (non-zero code) once the script is used up |
| Git.Written | internal/git/git.go:42-77 | running no command writes nothing, and every path the first reply writes is among the written paths |
| Git.GitPort.Run | internal/helpers.go:157-180 | running a command consumes the next reply and appends the command to the trace |
| Git.NonBlankConcat | internal/git/git.go:22-32 | the filter distributes over concatenation, so kept lines keep their order |
| Git.NonBlankKeeps | internal/git/git.go:22-32 | kept lines are exactly the input lines that are not all white space, verbatim, and never more lines than pieces |
| Git.ListChanges | internal/git/git.go:22-32 | the loop returns the non-blank lines of the split input, in order |
| Git.ListChangesMeaning | internal/git/git.go:22-32 | the listing is empty exactly when the output is blank; every line has content and no line break |
| Git.RemoteLookup | internal/git/git.go:50-57 | the URL lookup succeeds exactly on exit code 0, with the output trimmed |
| Git.GetRemoteURL | internal/git/git.go:50-57 | runs get-url once and returns the trimmed URL, or "" and the error |
| Manifests.Load | internal/files/json_files.go:34-63 | success only on a stored manifest document, which is returned with every entry resolved; a missing file is an error |
| Manifests.ReadFile | internal/files/json_files.go:34-63 | the loop returns Load's manifest, or an empty map and Load's error |
| Manifests.SaveEffect | internal/files/json_files.go:19-32 | a failed save leaves the disk unchanged |
| Manifests.SaveStatus | internal/files/json_files.go:19-32 | the manifest is written as given, or the write error is reported |
| Manifests.SaveThenLoad | internal/files/json_files.go:19-63 | what was saved loads back resolved, and a manifest with absolute paths loads back unchanged |
| Manifests.ResolveAllDistributes | internal/files/json_files.go:47-100 | resolving commutes with merging two manifests and with deleting a key, so AddFiles and RemoveFiles act on resolved entries as on stored ones |
| Manifests.AddFilesEffect | internal/files/json_files.go:65-81 | an unreadable manifest fails with its read error and writes nothing |
| Manifests.AddFiles | internal/files/json_files.go:65-81 | read, copy the new entries over, save |
| Manifests.AddFilesMerges | internal/files/json_files.go:65-81 | the file is rewritten with the stored entries, resolved, and the new entries copied over them; so afterwards the manifest holds the new entries and every stored entry they do not override, unchanged |
| Manifests.RemoveFilesEffect | internal/files/json_files.go:83-100 | an unreadable manifest fails with its read error and writes nothing |
| Manifests.RemoveFiles | internal/files/json_files.go:83-100 | read, delete the key, save |
| Manifests.RemoveFilesDeletes | internal/files/json_files.go:83-100 | the file is rewritten with the stored entries, resolved, less the removed key; so afterwards the manifest holds exactly the other stored entries |
| Relocation.AddFile | internal/manager/add.go:12-43 | the method's outcome, disk and remaining answers are those of AddFileEffect |
| Relocation.AddFileEffect | internal/manager/add.go:12-43 | on success the file's old place holds a link to the folder joined with the file's base name |
| Relocation.FolderEffect | internal/manager/add.go:16-24 | a failed folder step leaves the tree unchanged |
| Relocation.CreateFolder | internal/manager/add.go:16-24 | the method's outcome, disk and remaining answers are those of FolderEffect |
| Relocation.MoveAndLink | internal/manager/add.go:26-42 | moving and linking never asks the user anything |
| Relocation.MoveFileAndLink | internal/manager/add.go:26-42 | the method's outcome and disk are those of MoveAndLink |
| Relocation.AddFileDestinationTaken | internal/manager/add.go:26-28 | an occupied destination fails with "file already exists", with nothing changed and no question asked |
| Relocation.AddFileFolderDeclined | internal/manager/add.go:16-34 | a missing folder and a "no" leave the disk alone and the move fails |
| Relocation.FolderDeclined | internal/manager/add.go:17-24 | a missing folder and a "no" pass with the tree unchanged and the answer consumed |
| Relocation.FolderPresent | internal/manager/add.go:17 | an existing folder passes with no question and nothing changed |
| Relocation.JoinUnderMissingFolder | internal/manager/add.go:14-17 | below a missing folder the destination has no parent directory |
| Relocation.MoveWithoutParent | internal/manager/add.go:30-34 | a destination without a parent directory fails the move with nothing changed |
| Relocation.AddFileMissingSource | internal/manager/add.go:30-34 | a missing source fails the move with nothing changed |
| Relocation.AddFileSucceeds | internal/manager/add.go:12-43 | on the happy path the file moves to the destination, a link to it takes its place and reads back its content, and nothing else changes |
| Relocation.MoveAndLinkSucceeds | internal/manager/add.go:26-42 | with a free destination in an existing folder and no refusal, the file moves there and a link to it takes its old place |
| Relocation.AddFileMoves | internal/manager/add.go:12-43 | every successful AddFile, whether or not the folder had to be created: the folder step only added directories, the file's node now sits at the destination, its old place holds a link to the destination path as given, and nothing else changed |
| Relocation.MoveAndLinkPasses | internal/manager/add.go:26-42 | a move and link that pass moved the file to a different place and linked its old place, with nothing else changed |
| Relocation.AddFileLinkFailsAfterMove | internal/manager/add.go:30-40 | if the link cannot be made, the file stays moved and nothing is left at its old place |
| Relocation.LinkFailsAfterMove | internal/manager/add.go:30-40 | a refused link after a successful move fails with the file moved and nothing at its old place |
| Relocation.RemoveFile | internal/manager/remove.go:11-46 | the method's outcome and disk are those of RemoveFileEffect |
| Relocation.RemoveFileEffect | internal/manager/remove.go:11-46 | on success the path held a link whose target existed, the target is gone, and the link's place holds what the target held; a failure after a change has removed exactly the link |
| Relocation.LinkTarget | internal/manager/remove.go:17-29 | succeeds exactly on a link and returns its stored target; anything else at the path is "file is not a symlink" |
| Relocation.MoveBack | internal/manager/remove.go:35-43 | on success the link and the managed file are gone and the link's place holds the file; after a failed rename only the link is gone |
| Relocation.MoveBackSteps | internal/manager/remove.go:35-43 | the method's outcome and disk are those of MoveBack |
| Relocation.RemoveFileRejects | internal/manager/remove.go:17-33 | a missing path, a non-link or a link with a missing target is refused before any change |
| Relocation.RemoveFileResult | internal/manager/remove.go:35-43 | on success the link is gone and its place holds what the target held; a failed move leaves only the link removed |
| Relocation.AddThenRemove | internal/manager/remove.go:11-46 | adding a file and then removing its link restores the file and its content where it was, with the managed copy gone |
| Relocation.RemoveRestores | internal/manager/remove.go:11-46 | removing the link that AddFile left restores the tree as it was before the move, less the destination |
| Status.CheckSymlink | internal/manager/status.go:91-109 | a problem exactly when the resolved location does not exist; ok exactly when it exists and holds a link |
| Status.CheckPath | internal/manager/status.go:111-123 | ok, with no problem, exactly when the resolved managed path exists |
| Status.CheckSamePath | internal/manager/status.go:125-147 | ok exactly when a link is at the resolved location and its stored target equals the resolved managed path |
| Status.Diagnose | internal/manager/status.go:42-64 | at most two problems, and none only when both resolved locations exist |
| Status.DiagnoseMeaning | internal/manager/status.go:42-64 | no problem exactly when both locations exist and, if a link is at the link location, it points at the managed path; at most two problems; a mismatch comes alone |
| Status.DanglingLinkReported | internal/manager/status.go:97-101 | a dangling link is reported as a missing link location |
| Status.CheckEntry | internal/manager/status.go:35-64 | the link location and the managed path are kept, and the status stays as it was or becomes "Nok" |
| Status.CheckEntryVerdict | internal/manager/status.go:35-64 | paths kept; errors exactly when problems; "Nok" on a problem, status kept otherwise; checking twice changes nothing |
| Status.RepairedEntryStaysNok | internal/manager/status.go:43-62 | an entry once "Nok" stays "Nok" with no errors after it is repaired |
| Status.RegularFileAtLinkPasses | internal/manager/status.go:103-108 | a regular file where the link should be passes the check |
| Status.CheckEntryIntendedVerdict | internal/manager/status.go:10-17 | with the corrections, "Ok" exactly when the right link sits at the location and the managed path exists, "Nok" otherwise |
| Status.CheckAll | internal/manager/status.go:34-65 | the loop keeps the manifest's keys |
| Status.CheckStatusEffect | internal/manager/status.go:19-89 | a failure writes nothing, and a missing manifest fails with "could not find the file" and its path |
| Status.CheckEntries | internal/manager/status.go:34-65 | the loop over the manifest returns every entry checked, keys unchanged |
| Status.Messages | internal/manager/status.go:43-62 | one error message per problem found, in the order found |
| Status.Record | internal/manager/status.go:43-62 | a failed check makes the entry "Nok" and appends its message |
| Status.CheckOne | internal/manager/status.go:35-64 | the loop body yields CheckEntry of the entry |
| Status.CheckStatusWritesBack | internal/manager/status.go:19-89 | fails without writing when the manifest is missing or unreadable; on success what was written loads back as every entry checked, with keys and paths unchanged |
| Status.CheckStatus | internal/manager/status.go:19-89 | the method's outcome and disk are those of CheckStatusEffect |
| Sync.UploadPlan | internal/manager/sync.go:44-64 | the upload step never asks the user anything |
| Sync.PushPlan | internal/manager/sync.go:61-63 | the push takes one reply and asks nothing |
| Sync.DownloadPlan | internal/manager/sync.go:66-81 | one reply per command run, answers taken from the front, and success means status then pull |
| Sync.SyncPlan | internal/manager/sync.go:11-84 | rev-parse comes first, one reply is taken per command run, and answers are taken from the front |
| Sync.StatusPlan | internal/manager/sync.go:25-84 | the status comes first, and a failed or blank status or a dry run ends the run after it; one reply per command, answers from the front |
| Sync.ExchangePlan | internal/manager/sync.go:44-81 | one reply per command run, answers taken from the front |
| Sync.SyncNotARepository | internal/manager/sync.go:12-16 | a failed probe ends the run with "not a git repository" after that one command |
| Sync.SyncCleanTree | internal/manager/sync.go:25-35 | a blank status ends the run with "no changes detected" before any change, whatever the flags |
| Sync.SyncDryRunIsPure | internal/manager/sync.go:19-42 | a dry run only probes and reads the status, never asks, and succeeds on a dirty tree |
| Sync.SyncWithoutFlags | internal/manager/sync.go:37-83 | without flags a dirty tree is reported as success after probe and status |
| Sync.UploadFollowsDiffCode | internal/manager/sync.go:52-63 | diff code 1 commits "dotman sync" before pushing, 0 pushes without committing, any other code fails before the push |
| Sync.UploadShapes | internal/manager/sync.go:44-64 | the upload leaves one of six command sequences, and a successful one ends with the push |
| Sync.PushShape | internal/manager/sync.go:61-63 | the push step appends exactly one push to the commands run so far |
| Sync.DownloadShapes | internal/manager/sync.go:66-81 | the download runs at most the status and then one pull, and nothing else |
| Sync.UploadIgnoresUser | internal/manager/sync.go:44-64 | the upload does not depend on the user's answers and leaves them all unread |
| Sync.DownloadDeclined | internal/manager/sync.go:66-76 | a dirty tree and a "no" abort the download without pulling |
| Sync.ExchangeParts | internal/manager/sync.go:44-81 | the exchange is an upload part followed by a download part, each present only when its flag is set |
| Sync.SyncTraceOrder | internal/manager/sync.go:11-84 | every run is probe, status, upload, download in that order; a download starts only after a complete upload |
| Sync.StatusParts | internal/manager/sync.go:25-81 | after the status come an upload part and a download part of the shapes the flags allow |
| Sync.UploadFailureStopsDownload | internal/manager/sync.go:44-81 | a failed upload ends the run, and no pull runs |
| Sync.Upload | internal/manager/sync.go:44-64 | the method's outcome and commands are those of UploadPlan |
| Sync.Download | internal/manager/sync.go:66-81 | the method's outcome, commands and remaining answers are those of DownloadPlan |
| Sync.Exchange | internal/manager/sync.go:44-81 | the method follows ExchangePlan |
| Sync.CheckStatus | internal/manager/sync.go:25-84 | the method follows StatusPlan |
| Sync.SyncRepo | internal/manager/sync.go:11-84 | the method's outcome, commands and remaining answers are those of SyncPlan |
| Setup.CheckRemotePlan | internal/manager/init.go:107-126 | get-url runs first, one reply is taken per command run, and answers are taken from the front |
| Setup.OfferRemote | internal/manager/init.go:110-123 | one reply per command run, answers taken from the front |
| Setup.AddRemotePlan | internal/manager/init.go:112-121 | adding a remote runs `remote add` with the repository, then get-url once more if the add succeeded |
| Setup.AddRemoteSteps | internal/manager/init.go:112-121 | the method follows AddRemotePlan |
| Setup.OfferRemoteSteps | internal/manager/init.go:110-123 | the method asks once and follows the offer: the empty URL on a no, AddRemotePlan on a yes |
| Setup.CheckRemoteMeaning | internal/manager/init.go:107-126 | an existing origin is used unchanged without a question; a declined offer gives the empty URL and no error |
| Setup.CheckRemoteAdds | internal/manager/init.go:107-126 | get-url runs first; origin is added, and only as the repository, exactly when there was none and the user agreed |
| Setup.CheckRemoteCommands | internal/manager/init.go:107-126 | checkRemote runs only get-url and remote add |
| Setup.FetchCheckoutPullInOrder | internal/manager/init.go:42-59 | fetch, checkout and pull run in order, stop at the first failure, and succeed exactly when all three exit 0 |
| Setup.FetchCheckoutPullPlan | internal/manager/init.go:42-59 | one reply per command run, and no question asked |
| Setup.FreshRepoPlan | internal/manager/init.go:27-59 | at least one command runs, never more replies are taken than the script holds, answers are taken from the front, and a pull is always the last of fetch, checkout, pull |
| Setup.AfterRemote | internal/manager/init.go:37-59 | the result holds at least the commands run before and during checkRemote; one reply per later command; answers from the front |
| Setup.DownloadTail | internal/manager/init.go:42-59 | one reply per command run, answers taken from the front |
| Setup.AfterRemoteMeaning | internal/manager/init.go:37-59 | nothing is fetched unless checkRemote gave a non-empty URL and the user said yes; the earlier commands stay first; a pull ends fetch, checkout, pull |
| Setup.FreshRepoInitNeedsConsent | internal/manager/init.go:27-36 | git init runs exactly when the user agrees, and then comes first |
| Setup.PullLastAfterRemote | internal/manager/init.go:37-59 | after checkRemote, with or without git init before it, a pull is always the last of fetch, checkout, pull |
| Setup.DownloadAfterFront | internal/manager/init.go:37-59 | appending fetch, checkout and possibly pull keeps the earlier commands first and git init where it was, and a pull ends the three |
| Setup.FreshRepoSteps | internal/manager/init.go:27-59 | a failed git init ends the branch; otherwise checkRemote and the download follow |
| Setup.ReconcilePlan | internal/manager/init.go:60-91 | get-url runs first, never more replies are taken than the script holds, and answers are taken from the front |
| Setup.Candidate | internal/manager/init.go:68-73 | the normalised URL is kept when both URLs end in ".git", and gains ".git" when it has none |
| Setup.ReconcileSetsOnlyRepository | internal/manager/init.go:60-91 | the remote is rewritten, only ever to the repository, exactly when the URLs differ from the first character, the candidate matches, force is set and the user agrees |
| Setup.ReconcileComparesUrls | internal/manager/init.go:86-90 | a remote equal to the repository needs nothing; one that only starts alike is an error |
| Setup.CompareUrls | internal/manager/init.go:65-90 | set-url to the repository is the only command, and it runs exactly when the URLs differ from the first character, the candidate equals the repository, force is set and the user agrees |
| Setup.CompareRemote | internal/manager/init.go:65-90 | the method follows CompareUrls |
| Setup.GitHubForms | internal/helpers.go:68-96 | GitHub's two forms normalise into each other and keep their ".git" status |
| Setup.CandidateAsWritten | internal/manager/init.go:66-75 | as written, the other form of the repository is recognised only if one of the URLs ends in ".git" |
| Setup.SuffixBehindPrefix | internal/helpers.go:84-96 | behind GitHub's prefixes the ".git" test depends on the repository name alone |
| Setup.AsWrittenToggle | internal/manager/init.go:68-73 | as written, the suffix step reaches the wanted form exactly when one of the two forms ends in ".git" |
| Setup.CandidateMissesBareUrls | internal/manager/init.go:66-75 | "git@github.com:u/r" is not recognised as "https://github.com/u/r" |
| Setup.CandidateIntendedMatches | internal/manager/init.go:66-75 | with the corrected suffix test, the other form of the repository is always recognised |
| Setup.IntendedToggle | internal/manager/init.go:68-73 | toggling the suffix only when the two ".git" states differ always reaches the wanted form |
| Setup.LinkOne | internal/manager/init.go:134-142 | a missing file stops the walk with "file ... does not exist" and changes nothing; for an existing file the link is made, or its refusal is recorded under the link location and the walk goes on; every node is kept and at most this entry's link is added |
| Setup.LinkSteps | internal/manager/init.go:134-143 | the walk over the entries keeps every node that was there |
| Setup.LinkPlan | internal/manager/init.go:128-148 | an unreadable manifest fails with nothing changed, and existing nodes are always kept |
| Setup.LinkStepsMeaning | internal/manager/init.go:128-148 | the walk never changes a node, adds only the links of visited entries, and on success every visited entry has its link |
| Setup.LinkStepsSnoc | internal/manager/init.go:134-143 | the walk over one more entry is one more LinkOne after the walk so far, while nothing has stopped it |
| Setup.LinkOutcome | internal/manager/init.go:141-147 | success exactly when the walk did not stop and no link failed; a stop reports its own message; otherwise "could not create symlinks" |
| Setup.PrefixAgrees | internal/manager/init.go:134-143 | a walk and the same walk one entry longer reach the earlier entries in the same state |
| Setup.LinkStepsStops | internal/manager/init.go:134-143 | the walk stops exactly when it reaches an entry whose file is missing, with that file's message; a refused link never stops it |
| Setup.StopsAtLast | internal/manager/init.go:134-143 | a walk that had not stopped and stops at the next entry stopped because that entry's file was missing |
| Setup.RefusedLinksSnoc | internal/manager/init.go:135-139 | one more entry adds its link location to the refused ones exactly when its link is refused |
| Setup.LinkStepsFailures | internal/manager/init.go:134-143 | the failures kept at the end are exactly the link locations refused along the way |
| Setup.LinkWalkOutcome | internal/manager/init.go:134-147 | addSymlinks succeeds exactly when no visited file was missing and no link was refused, and fails with "could not create symlinks" exactly when no file was missing but some link was refused |
| Setup.LinkAll | internal/manager/init.go:134-147 | the loop follows the walk over a proper schedule of the manifest: each entry at most once, all of them unless the walk stopped, and then it stopped at the last entry visited because that file was missing |
| Setup.LinkEntry | internal/manager/init.go:134-142 | one turn of the loop follows LinkOne |
| Setup.AddSymlinks | internal/manager/init.go:128-148 | the method follows LinkPlan, visiting each entry at most once, all of them unless a file was missing, and then stopping at that entry |
| Setup.CheckRemote | internal/manager/init.go:107-126 | the method follows CheckRemotePlan |
| Setup.FetchCheckoutPull | internal/manager/init.go:42-59 | the method follows FetchCheckoutPullPlan |
| Setup.FreshRepo | internal/manager/init.go:27-59 | the method follows FreshRepoPlan |
| Setup.AfterRemoteSteps | internal/manager/init.go:37-59 | the method follows AfterRemote |
| Setup.Reconcile | internal/manager/init.go:60-91 | the method follows ReconcilePlan |
| Setup.FolderPlanMeaning | internal/manager/init.go:14-21 | an existing folder is used without a question; otherwise the tree changes only with a yes, only by gaining directories, and the folder is there afterwards |
| Setup.MakeFolderMeaning | internal/manager/init.go:14-21 | for the folder's absolute path: used without a question when it exists; otherwise only a yes changes the tree, only by adding directories, and then the folder is there |
| Setup.FolderPlan | internal/manager/init.go:14-21 | an existing folder is used with no question asked; the tree changes, or the step fails, only after a yes; a failure changes nothing; answers are taken from the front |
| Setup.MakeFolder | internal/manager/init.go:14-21 | the same for the folder's absolute path: used as it is when it exists, created only after a yes, nothing changed on a failure |
| Setup.PrepareFolder | internal/manager/init.go:14-21 | the method follows FolderPlan |
| Setup.ProbeDecides | internal/manager/init.go:25-91 | rev-parse comes first; code 128 leads to the fresh-repository branch, 0 to reconciling, anything else to neither |
| Setup.ProbePlan | internal/manager/init.go:24-91 | rev-parse runs first; an exit code other than 0 and 128 ends the step with success after that one command; never more replies than the script holds; answers from the front |
| Setup.BranchPlan | internal/manager/init.go:27-91 | code 0 reconciles, starting with get-url; code 128 runs the fresh-repository branch, at least one command; any other code runs nothing and asks nothing |
| Setup.GitWrites | internal/manager/init.go:24-59 | without a repository git writes nothing |
| Setup.InitPlan | internal/manager/init.go:12-105 | an empty repository fails with no git command run and the script untouched; otherwise the first git command is rev-parse |
| Setup.Probe | internal/manager/init.go:25-91 | the method follows ProbePlan |
| Setup.Branch | internal/manager/init.go:27-91 | the method follows BranchPlan |
| Setup.InitEmptyRepository | internal/manager/init.go:100-102 | an empty repository is an error, and no git command runs |
| Setup.InitRunsProbe | internal/manager/init.go:24-91 | past the folder step, Init runs exactly the probe's commands |
| Setup.InitTree | internal/manager/init.go:12-105 | Init's tree is the folder step's with git's writes laid over it, or what the link step made of that |
| Setup.LinkPlanOnlyAddsLinks | internal/manager/init.go:128-148 | the link step keeps every node and adds only links |
| Setup.InitChanges | internal/manager/init.go:12-105 | a node git did not write is kept, what git wrote stays as written, and every other new node is a directory or a link |
| Setup.InitLinksWhatGitWrote | internal/manager/init.go:27-98 | when git brought in an info.json holding manifest m and the links are asked for, the link step reads m resolved, and Init's tree and verdict are those of linking m's entries |
| Setup.Init | internal/manager/init.go:12-105 | the method's outcome, disk, commands and remaining answers are those of InitPlan; when the link step runs on a manifest that loads, the visiting order is a proper schedule of it, and otherwise nothing is visited |

## Left out

- Printing and logging are not modelled: `LogVerbose`, the progress messages, the change list that `SyncRepo` prints, and the report of unhealthy entries at the end of `CheckStatus`. `ListChanges` is modelled on its own.
- Running processes is not modelled. `Run` and `RunOutput` are replaced by the scripted `GitPort`, which returns the exit code and output. What a command writes into the work tree comes with its reply, and `Init` lays it over the disk (`FileSystem.Disk.Absorb`) before the link step. The folder a command runs in is not recorded in the trace. `Args` gives the command line.
- The JSON encoding is abstract. A manifest file holds either a manifest document or text that does not parse, so marshalling errors cannot occur.
- Paths are not lexically cleaned: `Join` puts exactly one separator between its parts and does not handle "." or "..".
- The file system is flat. A directory rename does not move its subtree, `Remove` does not check that a directory is empty, and links inside the intermediate components of a path are not followed.
- Stat errors other than "does not exist" or a link loop are not modelled.
- FileSystem.FolderExist: on a link loop the Go code dereferences a nil `FileInfo` and panics; the model answers false.
- FileSystem.FollowSymlink: a Readlink right after an Lstat that saw a link cannot fail in the model.
- The texts of operating-system errors are approximations of Go's wording ("permission denied", "file exists", ...). Environment refusals all read "permission denied".
- GoStrings.ToLower lowers ASCII letters only.
- GoStrings.TrimSpace: the function's own contract says only that the result is empty exactly for blank input and has no white space at either end. That it is the input with blank ends cut off is the separate lemma GoStrings.TrimSpaceCutsEnds, because an existential in the contract of a function used this widely makes every proof that touches it much slower.
- Git.Written: what git does to the work tree is scripted, one set of written nodes per reply. A write replaces the node at its path. Nodes that git deletes (a checkout or pull removing files) are not modelled, and neither is what git writes under `.git`.
- Remotes.SamePrefix compares characters where Go compares bytes. Both sides agree on ASCII URLs.
- Setup.AddSymlinks: the error text does not render Go's map of failed links. The failures are kept, keyed by link location, in `Progress.failed`, and the outcome is "could not create symlinks".
- Setup.AddSymlinks: Go's map iteration order is unspecified. The order is a ghost out-parameter, and the contract says it visits each entry at most once, and all of them unless a file is missing.
- UserInput.Confirm: prompts are only modelled as answered by the `MockUserInput`; standard input is not modelled. A line with no token or several tokens is a read error, which answers no, as `Scanln` does.
- The `cmd` package (the command-line layer), configuration loading, `list` and `LogVerbose` are not part of this model.
- The orchestrations (`CheckStatus`, `Init`) follow the code as written. The corrected members listed under Findings stand beside them and are not called by them.

## Findings

| source | as written | input that shows it | evidently intended | confidence | as-written member | corrected member |
|---|---|---|---|---|---|---|
| internal/helpers.go:126-127 | ShrinkPath tests the home prefix on characters, not on path elements | home "/home/al", path "/home/alice/.zshrc" gives "~ice/.zshrc", which resolves to "/home/al/ice/.zshrc" | shrink only home itself or paths below "home/" | high, not executed | Paths.ShrinkPathSiblingBreaksRoundTrip | Paths.ShrinkPathWithinHomeRoundTrip |
| internal/manager/status.go:43-62 | the status is only ever set to "Nok", never back to "Ok" | an entry stored as "Nok" whose link is repaired keeps "Nok" with no errors | "Ok" when no check failed (header comment, lines 10-17) | high, not executed | Status.RepairedEntryStaysNok | Status.CheckEntryIntendedVerdict |
| internal/manager/status.go:103-108 | checkSymlink returns false with no error when the location holds something other than a link, so nothing is recorded | a regular file at the link location with the managed file present passes with no error | a non-link at the link location is a problem | medium, not executed | Status.RegularFileAtLinkPasses | Status.CheckEntryIntendedVerdict |
| internal/manager/init.go:70-73 | SameSuffix is false when neither URL ends in ".git", so ".git" is appended to a URL that needed nothing | current "git@github.com:u/r", repository "https://github.com/u/r": the candidate is "https://github.com/u/r.git", so the remote is never recognised | toggle the suffix only when exactly one URL ends in ".git" | medium, not executed | Setup.CandidateMissesBareUrls | Setup.CandidateIntendedMatches |
