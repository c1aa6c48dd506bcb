/**
 * The older StagedChangesCommittedListener: a class-level `listen` with no
 * `enabled` flag that pushes every branch (`push_all`) before announcing
 * CommittedChangesPushed.
 */
module StagedChangesCommittedListener {
  import opened Optional
  import opened Artifact
  import opened External
  import opened ArtifactEventListener

  /** `listen`: pushes the Change's folder with `push_all` and forwards change and commit. */
  method Listen(host: Host, event: Event, newId: EventId) returns (r: Option<Event>)
    requires event.body.StagedChangesCommitted?
    modifies host
    ensures r == PushStep(host, true, PushAll(event.body.change.repositoryFolder), event, newId).result
    ensures host.log == old(host.log) + [PushAll(event.body.change.repositoryFolder)]
  {
    r := None;
    var pushed := PushCommits(host, event.body.change.repositoryFolder);
    if pushed {
      r := Some(Event(newId, Some(event.id), CommittedChangesPushed(event.body.change, event.body.commit)));
    }
  }

  /** `push`: true unless GitPush(folder).push_all() raises GitPushFailed. */
  method PushCommits(host: Host, folder: MaybeStr) returns (ok: bool)
    modifies host
    ensures ok == host.succeeds(PushAll(folder))
    ensures host.log == old(host.log) + [PushAll(folder)]
  {
    ok := host.Perform(PushAll(folder));
  }
}
