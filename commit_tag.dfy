/** The CommitTag listener: tags the pushed change's repository and announces CommittedChangesTagged. */
module CommitTag {
  import opened Optional
  import opened Artifact
  import opened External
  import opened ArtifactEventListener

  class CommitTag {
    const folder: string
    var enabled: bool

    /** A new CommitTag is enabled. */
    constructor(folder: string)
      ensures this.folder == folder && enabled
    {
      this.folder := folder;
      enabled := true;
    }

    /**
     * `listen`: when enabled, tags the folder of the event's Change; a
     * version becomes CommittedChangesTagged with that tag, the event's
     * commit and the Change's url, branch and folder.
     */
    method Listen(host: Host, event: Event, newId: EventId) returns (r: Option<Event>)
      requires event.body.CommittedChangesPushed? && (enabled ==> event.body.change.repositoryFolder.Some?)
      modifies host
      ensures r == TagStep(host, enabled, event, newId).result
      ensures host.log == old(host.log) + TagStep(host, enabled, event, newId).ops
    {
      if !enabled {
        return None;
      }
      r := None;
      var c := event.body.change;
      var version := ArtifactEventListener.Tag(host, c.repositoryFolder.value);
      if version.Some? {
        r := Some(Event(newId, Some(event.id),
          CommittedChangesTagged(version.value.value, event.body.commit, c.repositoryUrl, c.branch, c.repositoryFolder)));
      }
    }
  }
}
