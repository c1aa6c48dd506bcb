/** The ArtifactCommitPush listener: pushes the artifact commit and announces ArtifactCommitPushed. */
module ArtifactCommitPush {
  import opened Optional
  import opened Artifact
  import opened External
  import opened ArtifactEventListener

  class ArtifactCommitPush {
    const folder: string
    var enabled: bool

    /** A new ArtifactCommitPush is enabled. */
    constructor(folder: string)
      ensures this.folder == folder && enabled
    {
      this.folder := folder;
      enabled := true;
    }

    /** `listen`: nothing when disabled, otherwise `push_artifact_commit`. */
    method Listen(host: Host, event: Event, newId: EventId) returns (r: Option<Event>)
      requires event.body.ArtifactChangesCommitted?
      modifies host
      ensures r == PushStep(host, enabled, Push(event.body.change.repositoryFolder), event, newId).result
      ensures host.log == old(host.log) + PushStep(host, enabled, Push(event.body.change.repositoryFolder), event, newId).ops
    {
      if !enabled {
        return None;
      }
      r := PushArtifactCommit(host, event, newId);
    }

    /**
     * `push_artifact_commit`: a plain push of the Change's folder; on success
     * ArtifactCommitPushed with the same change and commit.
     */
    method PushArtifactCommit(host: Host, event: Event, newId: EventId) returns (r: Option<Event>)
      requires event.body.ArtifactChangesCommitted?
      modifies host
      ensures r == PushStep(host, true, Push(event.body.change.repositoryFolder), event, newId).result
      ensures host.log == old(host.log) + [Push(event.body.change.repositoryFolder)]
    {
      r := None;
      var pushed := host.Perform(Push(event.body.change.repositoryFolder));
      if pushed {
        r := Some(Event(newId, Some(event.id), ArtifactCommitPushed(event.body.change, event.body.commit)));
      }
    }
  }
}
