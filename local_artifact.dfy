/**
 * LocalArtifact: an artifact whose repository is cloned in a local folder.
 * Each of its listener entry points builds the matching handler for that
 * folder and lets it process the event; a freshly built handler is enabled.
 */
module LocalArtifact {
  import opened Optional
  import opened Artifact
  import opened External
  import opened ArtifactEventListener
  import CommitPush
  import CommitTag
  import TagPush

  class LocalArtifact {
    const repositoryFolder: string

    constructor(repositoryFolder: string)
      ensures this.repositoryFolder == repositoryFolder
    {
      this.repositoryFolder := repositoryFolder;
    }

    /** `commit_push`: pushes the commits of the Change's folder and forwards a CommittedChangesPushed. */
    method CommitPush(host: Host, event: Event, newId: EventId) returns (r: Option<Event>)
      requires event.body.StagedChangesCommitted?
      modifies host
      ensures r == PushStep(host, true, Push(event.body.change.repositoryFolder), event, newId).result
      ensures host.log == old(host.log) + PushStep(host, true, Push(event.body.change.repositoryFolder), event, newId).ops
    {
      var handler := new CommitPush.CommitPush(repositoryFolder);
      r := handler.Listen(host, event, newId);
    }

    /** `commit_tag`: tags the Change's folder and announces CommittedChangesTagged. */
    method CommitTag(host: Host, event: Event, newId: EventId) returns (r: Option<Event>)
      requires event.body.CommittedChangesPushed? && event.body.change.repositoryFolder.Some?
      modifies host
      ensures r == TagStep(host, true, event, newId).result
      ensures host.log == old(host.log) + TagStep(host, true, event, newId).ops
    {
      var handler := new CommitTag.CommitTag(repositoryFolder);
      r := handler.Listen(host, event, newId);
    }

    /** `tag_push`: pushes the tags of the event's folder and forwards a TagPushed. */
    method TagPush(host: Host, event: Event, newId: EventId) returns (r: Option<Event>)
      requires event.body.CommittedChangesTagged?
      modifies host
      ensures r == PushStep(host, true, PushTags(event.body.repositoryFolder), event, newId).result
      ensures host.log == old(host.log) + PushStep(host, true, PushTags(event.body.repositoryFolder), event, newId).ops
    {
      var handler := new TagPush.TagPush(repositoryFolder);
      r := handler.Listen(host, event, newId);
    }
  }

  /**
   * Running `commit_push`, `commit_tag` and `tag_push` on the events each
   * one announces carries a StagedChangesCommitted through to a TagPushed
   * that names the pushed tag and the Change's folder.
   */
  lemma {:induction false} LocalChain(host: Host, e0: Event, id1: EventId, id2: EventId, id3: EventId)
    requires e0.body.StagedChangesCommitted? && e0.body.change.repositoryFolder.Some?
    requires PushStep(host, true, Push(e0.body.change.repositoryFolder), e0, id1).result.Some?
    ensures var e1 := PushStep(host, true, Push(e0.body.change.repositoryFolder), e0, id1).result.value;
      && e1.body.CommittedChangesPushed?
      && e1.body.change == e0.body.change
      && (TagStep(host, true, e1, id2).result.Some? ==>
            var e2 := TagStep(host, true, e1, id2).result.value;
            && e2.body.CommittedChangesTagged?
            && e2.body.repositoryFolder == e0.body.change.repositoryFolder
            && (PushStep(host, true, PushTags(e2.body.repositoryFolder), e2, id3).result.Some? ==>
                  var e3 := PushStep(host, true, PushTags(e2.body.repositoryFolder), e2, id3).result.value;
                  && e3.body.TagPushed?
                  && e3.causation == Some(id2)
                  && e3.body.tag == host.nextPatch(e0.body.change.repositoryFolder.value).value
                  && e3.body.repositoryFolder == e0.body.change.repositoryFolder))
  {
    var e1 := PushStep(host, true, Push(e0.body.change.repositoryFolder), e0, id1).result.value;
    assert e1 == Forward(e0, id1);
    if TagStep(host, true, e1, id2).result.Some? {
      var e2 := TagStep(host, true, e1, id2).result.value;
      assert e2 == Tagged(e1, id2, host.nextPatch(e1.body.change.repositoryFolder.value).value);
      if PushStep(host, true, PushTags(e2.body.repositoryFolder), e2, id3).result.Some? {
        assert PushStep(host, true, PushTags(e2.body.repositoryFolder), e2, id3).result.value == Forward(e2, id3);
      }
    }
  }
}
