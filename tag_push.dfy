/** The TagPush listener: pushes the tags of the tagged repository and announces TagPushed. */
module TagPush {
  import opened Optional
  import opened Artifact
  import opened External
  import opened ArtifactEventListener

  class TagPush {
    const folder: string
    var enabled: bool

    /** A new TagPush is enabled. */
    constructor(folder: string)
      ensures this.folder == folder && enabled
    {
      this.folder := folder;
      enabled := true;
    }

    /**
     * `listen`: when enabled, pushes only the tags of the event's folder and
     * forwards tag, commit, url, branch and folder unchanged as TagPushed.
     */
    method Listen(host: Host, event: Event, newId: EventId) returns (r: Option<Event>)
      requires event.body.CommittedChangesTagged?
      modifies host
      ensures r == PushStep(host, enabled, PushTags(event.body.repositoryFolder), event, newId).result
      ensures host.log == old(host.log) + PushStep(host, enabled, PushTags(event.body.repositoryFolder), event, newId).ops
    {
      if !enabled {
        return None;
      }
      r := None;
      var b := event.body;
      var pushed := PushTagsOf(host, b.repositoryFolder);
      if pushed {
        r := Some(Event(newId, Some(event.id), TagPushed(b.tag, b.commit, b.repositoryUrl, b.branch, b.repositoryFolder)));
      }
    }

    /** `push_tags`: true unless GitPush(folder).push_tags() raises GitPushFailed. */
    method PushTagsOf(host: Host, folder: MaybeStr) returns (ok: bool)
      modifies host
      ensures ok == host.succeeds(PushTags(folder))
      ensures host.log == old(host.log) + [PushTags(folder)]
    {
      ok := host.Perform(PushTags(folder));
    }
  }
}
