/**
 * The events of the chain and the successor table that the abstract
 * `listen_*` signatures of `Artifact` declare: each listener consumes one
 * kind of event and produces the next kind.
 */
module Artifact {
  import opened Optional
  import opened Changes

  type EventId = string

  datatype EventKind =
    | ChangeStagedKind
    | StagedChangesCommittedKind
    | CommittedChangesPushedKind
    | CommittedChangesTaggedKind
    | TagPushedKind
    | ArtifactChangesCommittedKind
    | ArtifactCommitPushedKind
    | ArtifactCommitTaggedKind
    | ArtifactTagPushedKind

  /** What each kind of event carries besides its identifiers. */
  datatype Body =
    | ChangeStaged(files: seq<string>, repositoryFolder: MaybeStr)
    | StagedChangesCommitted(change: Change, commit: string)
    | CommittedChangesPushed(change: Change, commit: string)
    | CommittedChangesTagged(tag: string, commit: string, repositoryUrl: MaybeStr, branch: MaybeStr,
                             repositoryFolder: MaybeStr)
    | TagPushed(tag: string, commit: string, repositoryUrl: MaybeStr, branch: MaybeStr,
                repositoryFolder: MaybeStr)
    | ArtifactChangesCommitted(change: Change, commit: string)
    | ArtifactCommitPushed(change: Change, commit: string)
    | ArtifactCommitTagged(tag: string, commit: string, repositoryUrl: MaybeStr, branch: MaybeStr,
                           repositoryFolder: MaybeStr)
    | ArtifactTagPushed(tag: string, commit: string, repositoryUrl: MaybeStr, branch: MaybeStr,
                        repositoryFolder: MaybeStr)

  /**
   * An event: its own identifier, the identifier of the event that caused it
   * (`None` for a root event) and its payload.
   */
  datatype Event = Event(id: EventId, causation: Option<EventId>, body: Body)

  function Kind(b: Body): EventKind
  {
    match b
    case ChangeStaged(_, _) => ChangeStagedKind
    case StagedChangesCommitted(_, _) => StagedChangesCommittedKind
    case CommittedChangesPushed(_, _) => CommittedChangesPushedKind
    case CommittedChangesTagged(_, _, _, _, _) => CommittedChangesTaggedKind
    case TagPushed(_, _, _, _, _) => TagPushedKind
    case ArtifactChangesCommitted(_, _) => ArtifactChangesCommittedKind
    case ArtifactCommitPushed(_, _) => ArtifactCommitPushedKind
    case ArtifactCommitTagged(_, _, _, _, _) => ArtifactCommitTaggedKind
    case ArtifactTagPushed(_, _, _, _, _) => ArtifactTagPushedKind
  }

  /**
   * The kind a listener of kind `k` returns: the `listen_*` signatures of
   * `Artifact`, plus `Commit.listen`'s declared ChangeStaged -> StagedChangesCommitted.
   */
  function Successor(k: EventKind): (r: EventKind)
    ensures r != k
    ensures IsArtifactKind(k) ==> IsArtifactKind(r)
    ensures r != ChangeStagedKind
  {
    match k
    case ChangeStagedKind => StagedChangesCommittedKind
    case StagedChangesCommittedKind => CommittedChangesPushedKind
    case CommittedChangesPushedKind => CommittedChangesTaggedKind
    case CommittedChangesTaggedKind => TagPushedKind
    case TagPushedKind => ArtifactChangesCommittedKind
    case ArtifactChangesCommittedKind => ArtifactCommitPushedKind
    case ArtifactCommitPushedKind => ArtifactCommitTaggedKind
    case ArtifactCommitTaggedKind => ArtifactTagPushedKind
    case ArtifactTagPushedKind => ArtifactChangesCommittedKind
  }

  /** Kinds about the artifact repository, as opposed to the domain (source) repository. */
  predicate IsArtifactKind(k: EventKind)
  {
    k in {ArtifactChangesCommittedKind, ArtifactCommitPushedKind, ArtifactCommitTaggedKind,
          ArtifactTagPushedKind}
  }

  /** The kind reached after `n` listeners starting from kind `k`. */
  function After(k: EventKind, n: nat): EventKind
    decreases n
  {
    if n == 0 then k else After(Successor(k), n - 1)
  }

  /** Artifact kinds only lead to artifact kinds. */
  lemma {:induction false} ArtifactKindsAreClosed(k: EventKind, n: nat)
    requires IsArtifactKind(k)
    ensures IsArtifactKind(After(k, n))
    decreases n
  {
    if n > 0 {
      ArtifactKindsAreClosed(Successor(k), n - 1);
    }
  }

  /**
   * From StagedChangesCommitted the chain visits the three remaining domain
   * kinds once each, in order, and from the fourth step on it stays among the
   * artifact kinds: it never returns to a domain-side kind.
   */
  lemma ChainLeavesTheDomainSide(n: nat)
    ensures n == 1 ==> After(StagedChangesCommittedKind, n) == CommittedChangesPushedKind
    ensures n == 2 ==> After(StagedChangesCommittedKind, n) == CommittedChangesTaggedKind
    ensures n == 3 ==> After(StagedChangesCommittedKind, n) == TagPushedKind
    ensures IsArtifactKind(After(StagedChangesCommittedKind, n)) <==> n >= 4
  {
    if n >= 4 {
      assert After(StagedChangesCommittedKind, 4) == ArtifactChangesCommittedKind;
      AfterAdds(StagedChangesCommittedKind, 4, n - 4);
      ArtifactKindsAreClosed(ArtifactChangesCommittedKind, n - 4);
    }
  }

  /** Walking `m` steps and then `n` steps is walking `m + n` steps. */
  lemma {:induction false} AfterAdds(k: EventKind, m: nat, n: nat)
    ensures After(k, m + n) == After(After(k, m), n)
    decreases m
  {
    if m > 0 {
      AfterAdds(Successor(k), m - 1, n);
    }
  }

  /**
   * The artifact sub-chain is a cycle of four: ArtifactTagPushed leads back to
   * ArtifactChangesCommitted, and no shorter walk returns.
   */
  lemma {:induction false} ArtifactLoop(k: EventKind, n: nat)
    requires IsArtifactKind(k)
    ensures After(k, 4 * n) == k
    ensures 0 < n < 4 ==> After(k, n) != k
  {
    if n > 0 {
      AfterAdds(k, 4, 4 * (n - 1));
      ArtifactLoop(k, n - 1);
    }
  }

  /** ArtifactChangesCommitted is reached both from TagPushed and from ArtifactTagPushed, and from no other kind. */
  lemma TwoWaysIntoArtifactCommits(k: EventKind)
    ensures Successor(k) == ArtifactChangesCommittedKind <==> k == TagPushedKind || k == ArtifactTagPushedKind
  {
  }

  /**
   * The chain link every listener keeps: the event it emits has the fresh
   * identifier `newId`, names the consumed event as its cause and is of the
   * successor kind.
   */
  predicate Follows(cause: Event, effect: Event, newId: EventId)
  {
    effect.id == newId && effect.causation == Some(cause.id) &&
    Kind(effect.body) == Successor(Kind(cause.body))
  }

  /** Events that a push listener forwards after pushing. */
  predicate IsPushInput(b: Body)
  {
    b.StagedChangesCommitted? || b.CommittedChangesTagged? || b.ArtifactChangesCommitted? ||
    b.ArtifactCommitTagged?
  }

  /** Events that a tag listener answers with a tag. */
  predicate IsTagInput(b: Body)
  {
    b.CommittedChangesPushed? || b.ArtifactCommitPushed?
  }

  /**
   * The event a push listener emits: the successor kind, with every payload
   * field copied from the consumed event.
   */
  function Forward(e: Event, newId: EventId): (r: Event)
    requires IsPushInput(e.body)
    ensures Follows(e, r, newId)
    ensures r.body.StagedChangesCommitted? || r.body.CommittedChangesPushed? ||
            r.body.ArtifactChangesCommitted? || r.body.ArtifactCommitPushed? ==>
              e.body.change == r.body.change && e.body.commit == r.body.commit
    ensures !(e.body.StagedChangesCommitted? || e.body.ArtifactChangesCommitted?) ==>
      r.body.tag == e.body.tag && r.body.commit == e.body.commit &&
      r.body.repositoryUrl == e.body.repositoryUrl && r.body.branch == e.body.branch &&
      r.body.repositoryFolder == e.body.repositoryFolder
  {
    var b := match e.body
      case StagedChangesCommitted(c, h) => CommittedChangesPushed(c, h)
      case ArtifactChangesCommitted(c, h) => ArtifactCommitPushed(c, h)
      case CommittedChangesTagged(t, h, u, br, f) => TagPushed(t, h, u, br, f)
      case ArtifactCommitTagged(t, h, u, br, f) => ArtifactTagPushed(t, h, u, br, f);
    Event(newId, Some(e.id), b)
  }

  /**
   * The event a tag listener emits: the successor kind, tagged `version`, with
   * the commit of the consumed event and the url, branch and folder of its Change.
   */
  function Tagged(e: Event, newId: EventId, version: string): (r: Event)
    requires IsTagInput(e.body)
    ensures Follows(e, r, newId)
    ensures r.body.tag == version && r.body.commit == e.body.commit
    ensures r.body.repositoryUrl == e.body.change.repositoryUrl && r.body.branch == e.body.change.branch
    ensures r.body.repositoryFolder == e.body.change.repositoryFolder
  {
    var c := e.body.change;
    var b := if e.body.CommittedChangesPushed?
      then CommittedChangesTagged(version, e.body.commit, c.repositoryUrl, c.branch, c.repositoryFolder)
      else ArtifactCommitTagged(version, e.body.commit, c.repositoryUrl, c.branch, c.repositoryFolder);
    Event(newId, Some(e.id), b)
  }
}
