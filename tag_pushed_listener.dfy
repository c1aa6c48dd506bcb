/**
 * The older TagPushedListener: finds the artifact repository of a domain
 * repository by convention (the url suffixed with "-artifact", cloned next to
 * the domain clone), updates and commits the domain's flake there, and
 * announces ArtifactChangesCommitted. It has no `enabled` flag.
 */
module TagPushedListener {
  import opened Optional
  import opened Artifact
  import opened External
  import opened ArtifactEventListener
  import opened ArtifactCommitFromTagPushed

  const ArtifactSuffix := "-artifact"

  /** `artifact_repository_url_for`: `<url>-artifact` when that url answers 200 to a HEAD request. */
  function ArtifactRepositoryUrlFor(host: Host, url: MaybeStr): (r: Option<string>)
    ensures r.Some? <==> UrlExists(host, Show(url) + ArtifactSuffix)
    ensures r.Some? ==> r.value == Show(url) + ArtifactSuffix
    ensures url.Some? && r.Some? ==> r.value[..|url.value|] == url.value
  {
    var artifactUrl := Show(url) + ArtifactSuffix;
    if UrlExists(host, artifactUrl) then Some(artifactUrl) else None
  }

  /** Where the flake of the event's repository lives in its artifact clone, if all three lookups succeed. */
  function ArtifactFlake(host: Host, event: Event): (r: Option<(string, string)>)
    requires event.body.TagPushed? && event.body.repositoryFolder.Some?
    ensures r.Some? <==>
      var url := ArtifactRepositoryUrlFor(host, event.body.repositoryUrl);
      && url.Some?
      && ArtifactRepositoryFolderOf(host, url.value, event.body.repositoryFolder.value).Some?
      && FlakePathInArtifactRepository(host, ArtifactRepositoryFolderOf(host, url.value, event.body.repositoryFolder.value).value,
                                       event.body.repositoryUrl).Some?
    ensures r.Some? ==>
      var url := ArtifactRepositoryUrlFor(host, event.body.repositoryUrl).value;
      var artifactFolder := ArtifactRepositoryFolderOf(host, url, event.body.repositoryFolder.value).value;
      r.value == (artifactFolder, FlakePathInArtifactRepository(host, artifactFolder, event.body.repositoryUrl).value)
  {
    var url := ArtifactRepositoryUrlFor(host, event.body.repositoryUrl);
    if url.None? then None
    else
      var artifactFolder := ArtifactRepositoryFolderOf(host, url.value, event.body.repositoryFolder.value);
      if artifactFolder.None? then None
      else
        var flake := FlakePathInArtifactRepository(host, artifactFolder.value, event.body.repositoryUrl);
        if flake.None? then None else Some((artifactFolder.value, flake.value))
  }

  /**
   * `update_artifact_version` for a domain repository without its own flake:
   * nothing is performed unless the artifact url, folder and flake are all
   * found; then the flake is updated and committed in the artifact folder,
   * and a commit with a hash is announced as ArtifactChangesCommitted.
   */
  function UpdateArtifactVersionRun(host: Host, event: Event, newId: EventId): (run: Run<Option<Event>>)
    requires event.body.TagPushed? && event.body.repositoryFolder.Some?
    ensures ArtifactFlake(host, event).None? ==> run == Run(None, [])
    ensures ArtifactFlake(host, event).Some? ==>
      run == UpdateFlakeRun(host, ArtifactFlake(host, event).value.0, ArtifactFlake(host, event).value.1, event, newId)
    ensures run.result.Some? ==>
      && Follows(event, run.result.value, newId)
      && run.result.value.body.change.repositoryFolder == Some(ArtifactFlake(host, event).value.0)
  {
    match ArtifactFlake(host, event)
    case None => Run(None, [])
    case Some((artifactFolder, flake)) => UpdateFlakeRun(host, artifactFolder, flake, event, newId)
  }

  /** `listen`: always `update_artifact_version`. */
  method Listen(host: Host, event: Event, newId: EventId) returns (r: Option<Event>)
    requires event.body.TagPushed? && event.body.repositoryFolder.Some?
    requires !OwnFlake(host.fs, event.body.repositoryFolder.value)
    modifies host
    ensures r == UpdateArtifactVersionRun(host, event, newId).result
    ensures host.log == old(host.log) + UpdateArtifactVersionRun(host, event, newId).ops
  {
    r := UpdateArtifactVersion(host, event, newId);
  }

  /** `update_artifact_version`, performed step by step (the own-flake branch is not modelled). */
  method UpdateArtifactVersion(host: Host, event: Event, newId: EventId) returns (r: Option<Event>)
    requires event.body.TagPushed? && event.body.repositoryFolder.Some?
    requires !OwnFlake(host.fs, event.body.repositoryFolder.value)
    modifies host
    ensures r == UpdateArtifactVersionRun(host, event, newId).result
    ensures host.log == old(host.log) + UpdateArtifactVersionRun(host, event, newId).ops
  {
    var found := ArtifactFlake(host, event);
    if found.None? {
      return None;
    }
    var (artifactFolder, flake) := found.value;
    r := UpdateFlakeAndCommit(host, artifactFolder, flake, event, newId);
  }
}
