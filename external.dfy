/**
 * The collaborators the listeners call but that are not part of this model:
 * git (add, commit, push, tag, remote and branch lookups), the flake-update
 * script, the HTTP probe and the file system. Each performed step is
 * appended to a ghost log; whether it succeeds, and what the lookups answer,
 * is fixed by oracles given at construction.
 */
module External {
  import opened Optional
  import opened Paths

  /** A version as `GitRepo.increase_patch` returns it; `value` is its text. */
  datatype Version = Version(value: string)

  /** A step performed on a repository or by the flake-update script. */
  datatype Op =
    | Add(folder: MaybeStr, path: string)             // GitAdd(folder).add(path)
    | Commit(folder: MaybeStr, message: string)       // GitCommit(folder).commit(message)
    | Tag(folder: MaybeStr, version: string)          // GitTag(folder).tag(version)
    | Push(folder: MaybeStr)                          // GitPush(folder).push()
    | PushAll(folder: MaybeStr)                       // GitPush(folder).push_all()
    | PushTags(folder: MaybeStr)                      // GitPush(folder).push_tags()
    | IncreasePatch(folder: MaybeStr)                 // GitRepo.from_folder(folder).increase_patch(True)
    | UpdateFlake(flake: string, version: string)     // update-sha256-nix-flake.sh -f flake -V version

  /** What a listener step returns, together with the steps it performed, in order. */
  datatype Run<+T> = Run(result: T, ops: seq<Op>)

  /** True for the steps that send something to a remote. */
  predicate IsPush(op: Op)
  {
    op.Push? || op.PushAll? || op.PushTags?
  }

  class Host {
    /** Every step performed so far, in order, whether it succeeded or not. */
    ghost var log: seq<Op>

    /** Whether a step succeeds (for git steps: does not raise its Git*Failed). */
    const succeeds: Op -> bool
    /** The file system snapshot `os.path.exists` and `os.path.isdir` consult. */
    const fs: FileSystem
    /** `GitRepo.remote_urls(folder)`. */
    const remoteUrls: MaybeStr -> seq<string>
    /** `GitRepo.current_branch(folder)`. */
    const currentBranch: MaybeStr -> string
    /** `GitDiff(folder).diff()`. */
    const diff: MaybeStr -> string
    /** The version `increase_patch` computes for a folder. */
    const nextPatch: string -> Version
    /** The (hash, diff) pair a successful `GitCommit(folder).commit(message)` returns. */
    const commitOutput: (MaybeStr, string) -> (string, string)
    /** `GitRepo.from_folder(folder).url` and `.rev`. */
    const repoUrl: string -> string
    const repoRev: string -> string
    /** The repository name of `GitRepo.extract_repo_owner_and_repo_name(url)`. */
    const repoName: MaybeStr -> string
    /** The status code of `requests.head(url)`, or `None` when it raises a RequestException. */
    const headStatus: string -> Option<int>

    constructor(succeeds: Op -> bool, fs: FileSystem, remoteUrls: MaybeStr -> seq<string>,
                currentBranch: MaybeStr -> string, diff: MaybeStr -> string,
                nextPatch: string -> Version, commitOutput: (MaybeStr, string) -> (string, string),
                repoUrl: string -> string, repoRev: string -> string, repoName: MaybeStr -> string,
                headStatus: string -> Option<int>)
      ensures log == []
      ensures this.succeeds == succeeds && this.fs == fs && this.remoteUrls == remoteUrls
      ensures this.currentBranch == currentBranch && this.diff == diff && this.nextPatch == nextPatch
      ensures this.commitOutput == commitOutput && this.repoUrl == repoUrl && this.repoRev == repoRev
      ensures this.repoName == repoName && this.headStatus == headStatus
    {
      this.succeeds := succeeds;
      this.fs := fs;
      this.remoteUrls := remoteUrls;
      this.currentBranch := currentBranch;
      this.diff := diff;
      this.nextPatch := nextPatch;
      this.commitOutput := commitOutput;
      this.repoUrl := repoUrl;
      this.repoRev := repoRev;
      this.repoName := repoName;
      this.headStatus := headStatus;
      log := [];
    }

    /** Performs `op`, records it, and reports whether it succeeded. */
    method Perform(op: Op) returns (ok: bool)
      modifies this
      ensures ok == succeeds(op)
      ensures log == old(log) + [op]
    {
      ok := succeeds(op);
      log := log + [op];
    }

    /** `GitCommit(folder).commit(message)`: the (hash, diff) pair, or `None` on GitCommitFailed. */
    method Commit(folder: MaybeStr, message: string) returns (r: Option<(string, string)>)
      modifies this
      ensures r == if succeeds(Op.Commit(folder, message)) then Some(commitOutput(folder, message)) else None
      ensures log == old(log) + [Op.Commit(folder, message)]
    {
      var ok := Perform(Op.Commit(folder, message));
      r := if ok then Some(commitOutput(folder, message)) else None;
    }

    /** `GitRepo.from_folder(folder).increase_patch(True)`. */
    method IncreasePatch(folder: string) returns (v: Version)
      modifies this
      ensures v == nextPatch(folder)
      ensures log == old(log) + [Op.IncreasePatch(Some(folder))]
    {
      var _ := Perform(Op.IncreasePatch(Some(folder)));
      v := nextPatch(folder);
    }
  }

  /** `url_exists`: true only for HTTP status 200; a RequestException counts as false. */
  function UrlExists(host: Host, url: string): (r: bool)
    ensures r <==> host.headStatus(url) == Some(200)
  {
    match host.headStatus(url)
    case Some(status) => status == 200
    case None => false
  }
}
