/**
 * The ArtifactCommitFromTagPushed listener: when a domain repository pushes
 * a tag that belongs to this artifact's decision space, it writes the new
 * version into the artifact's flake for that repository, commits the flake
 * and announces ArtifactChangesCommitted. A flake that already records the
 * tag is left alone, which stops the chain from re-triggering itself.
 */
module ArtifactCommitFromTagPushed {
  import opened Optional
  import opened Paths
  import opened Changes
  import opened Artifact
  import opened External
  import opened ArtifactEventListener

  /** The flake commit: its hash and the Change it made. */
  datatype Committed = Committed(hash: string, change: Change)

  function NewTagCommitMessage(domainTag: string, domainRepoUrl: MaybeStr): string
  {
    "New tag " + domainTag + " in " + Show(domainRepoUrl)
  }

  /**
   * `commit_artifact_changes` run in `repoFolder`: add the flake, then commit
   * it; a GitAddFailed or GitCommitFailed gives `(None, None)`. The Change
   * holds the commit's diff and the url, revision and folder of the repository.
   */
  function CommitFlakeRun(host: Host, repoFolder: string, flake: string, domainRepoUrl: MaybeStr,
                          domainTag: string): (run: Run<Option<Committed>>)
    ensures var add := Add(Some(repoFolder), flake);
            var commit := Op.Commit(Some(repoFolder), NewTagCommitMessage(domainTag, domainRepoUrl));
            && run.ops == (if host.succeeds(add) then [add, commit] else [add])
            && (run.result.Some? <==> host.succeeds(add) && host.succeeds(commit))
    ensures run.result.Some? ==>
      var out := host.commitOutput(Some(repoFolder), NewTagCommitMessage(domainTag, domainRepoUrl));
      run.result.value == Committed(out.0, Change(Some(out.1), Some(host.repoUrl(repoFolder)),
                                                 Some(host.repoRev(repoFolder)), Some(repoFolder)))
  {
    var add := Add(Some(repoFolder), flake);
    var message := NewTagCommitMessage(domainTag, domainRepoUrl);
    if !host.succeeds(add) then Run(None, [add])
    else if !host.succeeds(Op.Commit(Some(repoFolder), message)) then Run(None, [add, Op.Commit(Some(repoFolder), message)])
    else
      var out := host.commitOutput(Some(repoFolder), message);
      Run(Some(Committed(out.0, FromUnidiffText(Some(out.1), Some(host.repoUrl(repoFolder)),
                                                Some(host.repoRev(repoFolder)), Some(repoFolder)))),
          [add, Op.Commit(Some(repoFolder), message)])
  }

  /** `commit_artifact_changes`, performed step by step in `repoFolder`. */
  method CommitArtifactChanges(host: Host, repoFolder: string, flake: string, domainRepoUrl: MaybeStr,
                               domainTag: string) returns (r: Option<Committed>)
    modifies host
    ensures r == CommitFlakeRun(host, repoFolder, flake, domainRepoUrl, domainTag).result
    ensures host.log == old(host.log) + CommitFlakeRun(host, repoFolder, flake, domainRepoUrl, domainTag).ops
  {
    r := None;
    var added := host.Perform(Add(Some(repoFolder), flake));
    if added {
      var out := host.Commit(Some(repoFolder), NewTagCommitMessage(domainTag, domainRepoUrl));
      if out.Some? {
        var (hash, diff) := out.value;
        r := Some(Committed(hash, FromUnidiffText(Some(diff), Some(host.repoUrl(repoFolder)),
                                                  Some(host.repoRev(repoFolder)), Some(repoFolder))));
      }
    }
  }

  /** Python's `if hash:` on what `commit_artifact_changes` returned. */
  predicate HasHash(c: Option<Committed>)
  {
    c.Some? && c.value.hash != ""
  }

  /** The flake update and commit, once a flake for `event`'s repository has been found. */
  function UpdateFlakeRun(host: Host, repoFolder: string, flake: string, event: Event, newId: EventId): (run: Run<Option<Event>>)
    requires event.body.TagPushed?
    ensures run.ops == [UpdateFlake(flake, event.body.tag)] +
                       CommitFlakeRun(host, repoFolder, flake, event.body.repositoryUrl, event.body.tag).ops
    ensures var committed := CommitFlakeRun(host, repoFolder, flake, event.body.repositoryUrl, event.body.tag).result;
            && (run.result.Some? <==> HasHash(committed))
            && (run.result.Some? ==>
                  Follows(event, run.result.value, newId) &&
                  run.result.value.body == ArtifactChangesCommitted(committed.value.change, committed.value.hash))
  {
    var commit := CommitFlakeRun(host, repoFolder, flake, event.body.repositoryUrl, event.body.tag);
    Run(if HasHash(commit.result)
        then Some(Event(newId, Some(event.id), ArtifactChangesCommitted(commit.result.value.change, commit.result.value.hash)))
        else None,
        [UpdateFlake(flake, event.body.tag)] + commit.ops)
  }

  /** Updates the flake to the event's tag, commits it, and announces a commit that has a hash. */
  method UpdateFlakeAndCommit(host: Host, repoFolder: string, flake: string, event: Event, newId: EventId)
    returns (r: Option<Event>)
    requires event.body.TagPushed?
    modifies host
    ensures r == UpdateFlakeRun(host, repoFolder, flake, event, newId).result
    ensures host.log == old(host.log) + UpdateFlakeRun(host, repoFolder, flake, event, newId).ops
  {
    r := None;
    var updated := UpdateVersionInFlake(host, event.body.tag, flake);
    if updated {
      var committed := CommitArtifactChanges(host, repoFolder, flake, event.body.repositoryUrl, event.body.tag);
      if HasHash(committed) {
        r := Some(Event(newId, Some(event.id), ArtifactChangesCommitted(committed.value.change, committed.value.hash)));
      }
    }
  }

  function ArtifactFolderCandidate(host: Host, artifactRepoUrl: string, domainRepoFolder: string): string
  {
    Join(Dirname(domainRepoFolder), host.repoName(Some(artifactRepoUrl)))
  }

  /**
   * `artifact_repository_folder_of`: the candidate sibling folder, kept only
   * if it exists, is a directory and holds a `.git`.
   */
  function ArtifactRepositoryFolderOf(host: Host, artifactRepoUrl: string, domainRepoFolder: string): (r: Option<string>)
    ensures var c := ArtifactFolderCandidate(host, artifactRepoUrl, domainRepoFolder);
      r.Some? <==> host.fs.Exists(c) && host.fs.IsDir(c) && host.fs.Exists(Join(c, ".git"))
    ensures r.Some? ==> r.value == ArtifactFolderCandidate(host, artifactRepoUrl, domainRepoFolder)
  {
    var c := ArtifactFolderCandidate(host, artifactRepoUrl, domainRepoFolder);
    if host.fs.Exists(c) && host.fs.IsDir(c) && host.fs.Exists(Join(c, ".git")) then Some(c) else None
  }

  /** The artifact folder lies next to the domain clone: both have the same parent. */
  lemma ArtifactFolderIsSibling(host: Host, artifactRepoUrl: string, domainRepoFolder: string)
    requires forall j :: 0 <= j < |host.repoName(Some(artifactRepoUrl))| ==> host.repoName(Some(artifactRepoUrl))[j] != '/'
    ensures Dirname(ArtifactFolderCandidate(host, artifactRepoUrl, domainRepoFolder)) == Dirname(domainRepoFolder)
  {
    SiblingOf(domainRepoFolder, host.repoName(Some(artifactRepoUrl)));
  }

  /** A slash-free file name under `folder/sub` lies in `sub`, and a plain `sub` lies directly in `folder`. */
  lemma FileInSubfolder(folder: string, sub: string, name: string)
    requires forall j :: 0 <= j < |name| ==> name[j] != '/'
    ensures Basename(Join(Join(folder, sub), name)) == name
    ensures Dirname(Join(Join(folder, sub), name)) == DirForm(Join(folder, sub))
    ensures sub != [] && (forall j :: 0 <= j < |sub| ==> sub[j] != '/') ==>
      && Basename(Dirname(Join(Join(folder, sub), name))) == sub
      && Dirname(Dirname(Join(Join(folder, sub), name))) == DirForm(folder)
  {
    ChildOf(Join(folder, sub), name);
    if sub != [] && (forall j :: 0 <= j < |sub| ==> sub[j] != '/') {
      ChildOf(folder, sub);
      var p := Join(folder, sub);
      assert p[|p| - 1] == sub[|sub| - 1];
    }
  }

  /**
   * `flake_path_in_artifact_repository`: `artifactRepoFolder/<repo>/flake.nix`
   * when it exists. The flake found is named `flake.nix` and sits directly in
   * the folder `<repo>`, which (for a plain repository name) sits directly in
   * the artifact repository's folder.
   */
  function FlakePathInArtifactRepository(host: Host, artifactRepoFolder: string, domainRepoUrl: MaybeStr): (r: Option<string>)
    ensures var f := Join(Join(artifactRepoFolder, host.repoName(domainRepoUrl)), FlakeFileName);
      (r.Some? <==> host.fs.Exists(f)) && (r.Some? ==> r.value == f)
    ensures r.Some? ==> Basename(r.value) == FlakeFileName
    ensures r.Some? ==> Dirname(r.value) == DirForm(Join(artifactRepoFolder, host.repoName(domainRepoUrl)))
    ensures var repo := host.repoName(domainRepoUrl);
      r.Some? && repo != [] && (forall j :: 0 <= j < |repo| ==> repo[j] != '/') ==>
        && Basename(Dirname(r.value)) == repo
        && Dirname(Dirname(r.value)) == DirForm(artifactRepoFolder)
  {
    FileInSubfolder(artifactRepoFolder, host.repoName(domainRepoUrl), FlakeFileName);
    var flake := Join(Join(artifactRepoFolder, host.repoName(domainRepoUrl)), FlakeFileName);
    if host.fs.Exists(flake) then Some(flake) else None
  }

  class ArtifactCommitFromTagPushed {
    const folder: string
    var enabled: bool
    /** `refers_to_my_decision_space(url)`, defined by the concrete artifact. */
    const refersToMyDecisionSpace: MaybeStr -> bool
    /** `flake_path(url)`, defined by the concrete artifact. */
    const flakePath: MaybeStr -> Option<string>
    /** `retrieve_version_in_flake(flake)`, defined by the concrete artifact. */
    const versionInFlake: string -> string

    /** A new ArtifactCommitFromTagPushed is enabled. */
    constructor(folder: string, refersToMyDecisionSpace: MaybeStr -> bool,
                flakePath: MaybeStr -> Option<string>, versionInFlake: string -> string)
      ensures this.folder == folder && enabled
      ensures this.refersToMyDecisionSpace == refersToMyDecisionSpace
      ensures this.flakePath == flakePath && this.versionInFlake == versionInFlake
    {
      this.folder := folder;
      this.refersToMyDecisionSpace := refersToMyDecisionSpace;
      this.flakePath := flakePath;
      this.versionInFlake := versionInFlake;
      enabled := true;
    }

    /**
     * `update_artifact_version`. Nothing happens, and nothing is emitted,
     * unless the event's repository is in this artifact's decision space, a
     * flake for it exists, and that flake does not already record the tag;
     * then the flake is updated and committed in this listener's folder, and
     * a commit with a hash is announced as ArtifactChangesCommitted.
     */
    function UpdateArtifactVersionRun(host: Host, event: Event, newId: EventId): (run: Run<Option<Event>>)
      requires event.body.TagPushed?
      ensures !refersToMyDecisionSpace(event.body.repositoryUrl) ==> run == Run(None, [])
      ensures flakePath(event.body.repositoryUrl).None? ==> run == Run(None, [])
      ensures var flake := flakePath(event.body.repositoryUrl);
        flake.Some? && versionInFlake(flake.value) == event.body.tag ==> run == Run(None, [])
      ensures run.ops != [] ==>
        var flake := flakePath(event.body.repositoryUrl).value;
        && refersToMyDecisionSpace(event.body.repositoryUrl)
        && versionInFlake(flake) != event.body.tag
        && run == UpdateFlakeRun(host, folder, flake, event, newId)
      ensures var url := event.body.repositoryUrl;
        refersToMyDecisionSpace(url) && flakePath(url).Some? && versionInFlake(flakePath(url).value) != event.body.tag ==>
          run == UpdateFlakeRun(host, folder, flakePath(url).value, event, newId)
      ensures run.result.Some? ==> run.ops != [] && Follows(event, run.result.value, newId)
    {
      var url := event.body.repositoryUrl;
      if refersToMyDecisionSpace(url) && flakePath(url).Some? && versionInFlake(flakePath(url).value) != event.body.tag
      then UpdateFlakeRun(host, folder, flakePath(url).value, event, newId)
      else Run(None, [])
    }

    /** `listen`: nothing when disabled, otherwise `update_artifact_version`. */
    method Listen(host: Host, event: Event, newId: EventId) returns (r: Option<Event>)
      requires event.body.TagPushed?
      modifies host
      ensures !enabled ==> r.None? && host.log == old(host.log)
      ensures enabled ==> r == UpdateArtifactVersionRun(host, event, newId).result
      ensures enabled ==> host.log == old(host.log) + UpdateArtifactVersionRun(host, event, newId).ops
    {
      if !enabled {
        return None;
      }
      r := UpdateArtifactVersion(host, event, newId);
    }

    /** `update_artifact_version`, performed step by step. */
    method UpdateArtifactVersion(host: Host, event: Event, newId: EventId) returns (r: Option<Event>)
      requires event.body.TagPushed?
      modifies host
      ensures r == UpdateArtifactVersionRun(host, event, newId).result
      ensures host.log == old(host.log) + UpdateArtifactVersionRun(host, event, newId).ops
    {
      r := None;
      var url := event.body.repositoryUrl;
      if refersToMyDecisionSpace(url) {
        var flake := flakePath(url);
        if flake.Some? && versionInFlake(flake.value) != event.body.tag {
          r := UpdateFlakeAndCommit(host, folder, flake.value, event, newId);
        }
      }
    }
  }
}
