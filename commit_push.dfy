/** The CommitPush listener: pushes the committed change's repository and announces CommittedChangesPushed. */
module CommitPush {
  import opened Optional
  import opened Artifact
  import opened External
  import opened ArtifactEventListener

  class CommitPush {
    const folder: string
    var enabled: bool

    /** A new CommitPush is enabled. */
    constructor(folder: string)
      ensures this.folder == folder && enabled
    {
      this.folder := folder;
      enabled := true;
    }

    /**
     * `listen`: when enabled, pushes the folder of the event's Change (not
     * this listener's own folder) with a plain push, and forwards change and
     * commit as CommittedChangesPushed caused by the event.
     */
    method Listen(host: Host, event: Event, newId: EventId) returns (r: Option<Event>)
      requires event.body.StagedChangesCommitted?
      modifies host
      ensures r == PushStep(host, enabled, Push(event.body.change.repositoryFolder), event, newId).result
      ensures host.log == old(host.log) + PushStep(host, enabled, Push(event.body.change.repositoryFolder), event, newId).ops
    {
      if !enabled {
        return None;
      }
      r := None;
      var pushed := PushCommits(host, event.body.change.repositoryFolder);
      if pushed {
        r := Some(Event(newId, Some(event.id), CommittedChangesPushed(event.body.change, event.body.commit)));
      }
    }

    /** `push`: true unless GitPush(folder).push() raises GitPushFailed. */
    method PushCommits(host: Host, folder: MaybeStr) returns (ok: bool)
      modifies host
      ensures ok == host.succeeds(Push(folder))
      ensures host.log == old(host.log) + [Push(folder)]
    {
      ok := host.Perform(Push(folder));
    }
  }
}
