/**
 * The ArtifactCommitPushedListener: tags the pushed artifact repository and
 * announces ArtifactCommitTagged. It has no `enabled` flag and always tags.
 */
module ArtifactCommitPushedListener {
  import opened Optional
  import opened Artifact
  import opened External
  import opened ArtifactEventListener

  /** `listen`: always `tag_artifact`. */
  method Listen(host: Host, event: Event, newId: EventId) returns (r: Option<Event>)
    requires event.body.ArtifactCommitPushed? && event.body.change.repositoryFolder.Some?
    modifies host
    ensures r == TagStep(host, true, event, newId).result
    ensures host.log == old(host.log) + TagStep(host, true, event, newId).ops
  {
    r := TagArtifact(host, event, newId);
  }

  /**
   * `tag_artifact`: tags the folder of the event's Change; a version becomes
   * ArtifactCommitTagged with that tag, the event's commit and the Change's
   * url, branch and folder.
   */
  method TagArtifact(host: Host, event: Event, newId: EventId) returns (r: Option<Event>)
    requires event.body.ArtifactCommitPushed? && event.body.change.repositoryFolder.Some?
    modifies host
    ensures r == TagStep(host, true, event, newId).result
    ensures host.log == old(host.log) + TagStep(host, true, event, newId).ops
  {
    r := None;
    var c := event.body.change;
    var version := ArtifactEventListener.Tag(host, c.repositoryFolder.value);
    if version.Some? {
      r := Some(Event(newId, Some(event.id),
        ArtifactCommitTagged(version.value.value, event.body.commit, c.repositoryUrl, c.branch, c.repositoryFolder)));
    }
  }
}
