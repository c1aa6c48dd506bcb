/**
 * The ArtifactCommitTaggedListener: pushes the artifact's tags and announces
 * ArtifactTagPushed. It has no `enabled` flag.
 */
module ArtifactCommitTaggedListener {
  import opened Optional
  import opened Artifact
  import opened External
  import opened ArtifactEventListener

  /** `listen`: always `push_tag_artifact`. */
  method Listen(host: Host, event: Event, newId: EventId) returns (r: Option<Event>)
    requires event.body.ArtifactCommitTagged?
    modifies host
    ensures r == PushStep(host, true, PushTags(event.body.repositoryFolder), event, newId).result
    ensures host.log == old(host.log) + [PushTags(event.body.repositoryFolder)]
  {
    r := PushTagArtifact(host, event, newId);
  }

  /** `push_tag_artifact`: pushes the tags of the event's folder and forwards its five fields as ArtifactTagPushed. */
  method PushTagArtifact(host: Host, event: Event, newId: EventId) returns (r: Option<Event>)
    requires event.body.ArtifactCommitTagged?
    modifies host
    ensures r == PushStep(host, true, PushTags(event.body.repositoryFolder), event, newId).result
    ensures host.log == old(host.log) + [PushTags(event.body.repositoryFolder)]
  {
    r := None;
    var b := event.body;
    var pushed := host.Perform(PushTags(b.repositoryFolder));
    if pushed {
      r := Some(Event(newId, Some(event.id), ArtifactTagPushed(b.tag, b.commit, b.repositoryUrl, b.branch, b.repositoryFolder)));
    }
  }
}
