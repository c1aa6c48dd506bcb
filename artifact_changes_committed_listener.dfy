/**
 * The older ArtifactChangesCommittedListener: a class-level `listen` with no
 * `enabled` flag that pushes the artifact commit with `push_all`.
 */
module ArtifactChangesCommittedListener {
  import opened Optional
  import opened Artifact
  import opened External
  import opened ArtifactEventListener

  /** `listen`: always `push_artifact_commit`. */
  method Listen(host: Host, event: Event, newId: EventId) returns (r: Option<Event>)
    requires event.body.ArtifactChangesCommitted?
    modifies host
    ensures r == PushStep(host, true, PushAll(event.body.change.repositoryFolder), event, newId).result
    ensures host.log == old(host.log) + [PushAll(event.body.change.repositoryFolder)]
  {
    r := PushArtifactCommit(host, event, newId);
  }

  /** `push_artifact_commit`: `push_all` of the Change's folder; on success ArtifactCommitPushed with the same change and commit. */
  method PushArtifactCommit(host: Host, event: Event, newId: EventId) returns (r: Option<Event>)
    requires event.body.ArtifactChangesCommitted?
    modifies host
    ensures r == PushStep(host, true, PushAll(event.body.change.repositoryFolder), event, newId).result
    ensures host.log == old(host.log) + [PushAll(event.body.change.repositoryFolder)]
  {
    r := None;
    var pushed := host.Perform(PushAll(event.body.change.repositoryFolder));
    if pushed {
      r := Some(Event(newId, Some(event.id), ArtifactCommitPushed(event.body.change, event.body.commit)));
    }
  }
}
