/**
 * The older CommittedChangesPushedListener: a class-level `listen` with no
 * `enabled` flag that tags the pushed repository and announces CommittedChangesTagged.
 */
module CommittedChangesPushedListener {
  import opened Optional
  import opened Artifact
  import opened External
  import opened ArtifactEventListener

  /** `listen`: tags the Change's folder; a version becomes CommittedChangesTagged. */
  method Listen(host: Host, event: Event, newId: EventId) returns (r: Option<Event>)
    requires event.body.CommittedChangesPushed? && event.body.change.repositoryFolder.Some?
    modifies host
    ensures r == TagStep(host, true, event, newId).result
    ensures host.log == old(host.log) + TagStep(host, true, event, newId).ops
  {
    r := None;
    var c := event.body.change;
    var version := ArtifactEventListener.Tag(host, c.repositoryFolder.value);
    if version.Some? {
      r := Some(Event(newId, Some(event.id),
        CommittedChangesTagged(version.value.value, event.body.commit, c.repositoryUrl, c.branch, c.repositoryFolder)));
    }
  }
}
