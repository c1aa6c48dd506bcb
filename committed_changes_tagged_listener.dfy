/**
 * The older CommittedChangesTaggedListener: a class-level `listen` with no
 * `enabled` flag that pushes the tags and announces TagPushed.
 */
module CommittedChangesTaggedListener {
  import opened Optional
  import opened Artifact
  import opened External
  import opened ArtifactEventListener

  /** `listen`: pushes the tags of the event's folder and forwards its five fields as TagPushed. */
  method Listen(host: Host, event: Event, newId: EventId) returns (r: Option<Event>)
    requires event.body.CommittedChangesTagged?
    modifies host
    ensures r == PushStep(host, true, PushTags(event.body.repositoryFolder), event, newId).result
    ensures host.log == old(host.log) + [PushTags(event.body.repositoryFolder)]
  {
    r := None;
    var b := event.body;
    var pushed := PushTagsOf(host, b.repositoryFolder);
    if pushed {
      r := Some(Event(newId, Some(event.id), TagPushed(b.tag, b.commit, b.repositoryUrl, b.branch, b.repositoryFolder)));
    }
  }

  /** `push_tags`: true unless GitPush(folder).push_tags() raises GitPushFailed. */
  method PushTagsOf(host: Host, folder: MaybeStr) returns (ok: bool)
    modifies host
    ensures ok == host.succeeds(PushTags(folder))
    ensures host.log == old(host.log) + [PushTags(folder)]
  {
    ok := host.Perform(PushTags(folder));
  }
}
