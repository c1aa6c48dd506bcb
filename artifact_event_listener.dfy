/**
 * What every listener shares: whether a folder holds its own flake, running
 * the flake-update script, tagging (bump the patch version, then, for a
 * repository with its own flake, add, commit and tag), and the two shapes a
 * listener step takes (push then forward, tag then announce).
 */
module ArtifactEventListener {
  import opened Optional
  import opened Paths
  import opened Artifact
  import opened External

  const FlakeFileName := "flake.nix"

  /** `own_flake`: the folder has a `flake.nix` of its own. */
  function OwnFlake(fs: FileSystem, folder: string): (r: bool)
    ensures r <==> fs.Exists(Join(folder, FlakeFileName))
  {
    fs.Exists(Join(folder, FlakeFileName))
  }

  /**
   * The flake `own_flake` looks for is the folder's root flake: the path
   * probed is named `flake.nix` and its parent is the folder itself.
   */
  lemma OwnFlakeProbesRootFlake(folder: string)
    ensures Dirname(Join(folder, FlakeFileName)) == DirForm(folder)
    ensures Basename(Join(folder, FlakeFileName)) == FlakeFileName
  {
    ChildOf(folder, FlakeFileName);
  }

  /**
   * `update_version_in_flake`: runs the flake-update script on `flake` and
   * answers true whether or not the script failed.
   */
  method UpdateVersionInFlake(host: Host, version: string, flake: string) returns (updated: bool)
    modifies host
    ensures updated
    ensures host.log == old(host.log) + [UpdateFlake(flake, version)]
  {
    var _ := host.Perform(UpdateFlake(flake, version));
    updated := true;
  }

  /** The commit message `tag` uses for the flake's version bump. */
  function VersionCommitMessage(version: string): string
  {
    "Updated version to " + version
  }

  /**
   * Everything `tag` would do in a folder with its own flake when no step
   * fails: bump, run the script, add the flake, commit the bump, tag the version.
   */
  function TagSteps(folder: string, version: string): (ops: seq<Op>)
  {
    [IncreasePatch(Some(folder)), UpdateFlake(Join(folder, FlakeFileName), version),
     Add(Some(folder), Join(folder, FlakeFileName)),
     Commit(Some(folder), VersionCommitMessage(version)), Op.Tag(Some(folder), version)]
  }

  /**
   * `tag(folder)`. The version is always the bumped patch version. Without
   * an own flake nothing is added, committed or tagged. With one, the steps
   * of TagSteps are performed in order up to the first failing add, commit or
   * tag, and any such failure makes the result `None`.
   */
  function TagRun(host: Host, folder: string): (run: Run<Option<Version>>)
    ensures run.result.Some? ==> run.result.value == host.nextPatch(folder)
    ensures !OwnFlake(host.fs, folder) ==>
      run.result == Some(host.nextPatch(folder)) && run.ops == [IncreasePatch(Some(folder))]
    ensures OwnFlake(host.fs, folder) ==>
      var steps := TagSteps(folder, host.nextPatch(folder).value);
      && 3 <= |run.ops| <= 5 && run.ops == steps[..|run.ops|]
      && (forall i :: 2 <= i < |run.ops| - 1 ==> host.succeeds(run.ops[i]))
      && (|run.ops| < 5 ==> !host.succeeds(run.ops[|run.ops| - 1]))
      && (run.result.Some? <==> forall i :: 2 <= i < 5 ==> host.succeeds(steps[i]))
  {
    var v := host.nextPatch(folder);
    if !OwnFlake(host.fs, folder) then Run(Some(v), [IncreasePatch(Some(folder))])
    else
      var steps := TagSteps(folder, v.value);
      if !host.succeeds(steps[2]) then Run(None, steps[..3])
      else if !host.succeeds(steps[3]) then Run(None, steps[..4])
      else Run(if host.succeeds(steps[4]) then Some(v) else None, steps)
  }

  /** `tag(folder)`, step by step as the source performs it. */
  method Tag(host: Host, folder: string) returns (version: Option<Version>)
    modifies host
    ensures version == TagRun(host, folder).result
    ensures host.log == old(host.log) + TagRun(host, folder).ops
  {
    var bumped := host.IncreasePatch(folder);
    version := Some(bumped);
    if OwnFlake(host.fs, folder) {
      var flake := Join(folder, FlakeFileName);
      var updated := UpdateVersionInFlake(host, bumped.value, flake);
      if updated {
        var added := host.Perform(Add(Some(folder), flake));
        if !added {
          version := None;
        } else {
          var committed := host.Commit(Some(folder), VersionCommitMessage(bumped.value));
          if committed.None? {
            version := None;
          } else {
            var tagged := host.Perform(Op.Tag(Some(folder), bumped.value));
            if !tagged {
              version := None;
            }
          }
        }
      }
    }
  }

  /**
   * A push listener: when enabled, performs the single `push` step; on
   * success it forwards the consumed event's payload as the next event,
   * otherwise (or when disabled) it emits nothing.
   */
  function PushStep(host: Host, enabled: bool, push: Op, e: Event, newId: EventId): (run: Run<Option<Event>>)
    requires IsPush(push) && IsPushInput(e.body)
    ensures !enabled ==> run.result.None? && run.ops == []
    ensures enabled ==> run.ops == [push]
    ensures run.result.Some? <==> enabled && host.succeeds(push)
    ensures run.result.Some? ==> run.result.value == Forward(e, newId)
  {
    if !enabled then Run(None, [])
    else Run(if host.succeeds(push) then Some(Forward(e, newId)) else None, [push])
  }

  /**
   * A tag listener: when enabled, tags the folder of the consumed event's
   * Change; a tagged version is announced as the next event.
   */
  function TagStep(host: Host, enabled: bool, e: Event, newId: EventId): (run: Run<Option<Event>>)
    requires IsTagInput(e.body) && (enabled ==> e.body.change.repositoryFolder.Some?)
    ensures !enabled ==> run.result.None? && run.ops == []
    ensures enabled ==> run.ops == TagRun(host, e.body.change.repositoryFolder.value).ops
    ensures run.result.Some? <==> enabled && TagRun(host, e.body.change.repositoryFolder.value).result.Some?
    ensures run.result.Some? ==>
      run.result.value == Tagged(e, newId, host.nextPatch(e.body.change.repositoryFolder.value).value)
  {
    if !enabled then Run(None, [])
    else
      var tag := TagRun(host, e.body.change.repositoryFolder.value);
      Run(if tag.result.Some? then Some(Tagged(e, newId, tag.result.value.value)) else None, tag.ops)
  }
}
