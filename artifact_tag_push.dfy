/** The ArtifactTagPush listener: pushes the artifact's tags and announces ArtifactTagPushed. */
module ArtifactTagPush {
  import opened Optional
  import opened Artifact
  import opened External
  import opened ArtifactEventListener

  class ArtifactTagPush {
    const folder: string
    var enabled: bool

    /** A new ArtifactTagPush is enabled. */
    constructor(folder: string)
      ensures this.folder == folder && enabled
    {
      this.folder := folder;
      enabled := true;
    }

    /** `listen`: always `push_tag_artifact`, which holds the `enabled` check. */
    method Listen(host: Host, event: Event, newId: EventId) returns (r: Option<Event>)
      requires event.body.ArtifactCommitTagged?
      modifies host
      ensures r == PushStep(host, enabled, PushTags(event.body.repositoryFolder), event, newId).result
      ensures host.log == old(host.log) + PushStep(host, enabled, PushTags(event.body.repositoryFolder), event, newId).ops
    {
      r := PushTagArtifact(host, event, newId);
    }

    /**
     * `push_tag_artifact`: nothing when disabled; otherwise pushes the tags
     * of the event's folder and forwards tag, commit, url, branch and folder
     * as ArtifactTagPushed.
     */
    method PushTagArtifact(host: Host, event: Event, newId: EventId) returns (r: Option<Event>)
      requires event.body.ArtifactCommitTagged?
      modifies host
      ensures r == PushStep(host, enabled, PushTags(event.body.repositoryFolder), event, newId).result
      ensures host.log == old(host.log) + PushStep(host, enabled, PushTags(event.body.repositoryFolder), event, newId).ops
    {
      if !enabled {
        return None;
      }
      r := None;
      var b := event.body;
      var pushed := host.Perform(PushTags(b.repositoryFolder));
      if pushed {
        r := Some(Event(newId, Some(event.id), ArtifactTagPushed(b.tag, b.commit, b.repositoryUrl, b.branch, b.repositoryFolder)));
      }
    }
  }
}
