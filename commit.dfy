/**
 * The Commit listener: stages the files a ChangeStaged event lists, one
 * `git add` per file in list order, and packs the repository's diff, first
 * remote url and current branch into a Change.
 */
module Commit {
  import opened Optional
  import opened Changes
  import opened Artifact
  import opened External

  /** The add step for each file, in order. */
  function Adds(folder: MaybeStr, files: seq<string>): (ops: seq<Op>)
    ensures |ops| == |files|
    ensures forall i :: 0 <= i < |files| ==> ops[i] == Add(folder, files[i])
  {
    seq(|files|, i requires 0 <= i < |files| => Add(folder, files[i]))
  }

  /** Every file of `files` can be added. */
  predicate AllAdded(host: Host, folder: MaybeStr, files: seq<string>)
  {
    forall i :: 0 <= i < |files| ==> host.succeeds(Add(folder, files[i]))
  }

  /** The index of the first file whose add fails, or the number of files when none does. */
  function FirstFailure(host: Host, folder: MaybeStr, files: seq<string>): (k: nat)
    ensures k <= |files|
    ensures forall j :: 0 <= j < k ==> host.succeeds(Add(folder, files[j]))
    ensures k < |files| ==> !host.succeeds(Add(folder, files[k]))
  {
    if files == [] || !host.succeeds(Add(folder, files[0])) then 0
    else
      var k := FirstFailure(host, folder, files[1..]);
      assert forall j :: 1 <= j < k + 1 ==> files[j] == files[1..][j - 1];
      k + 1
  }

  /** Every add succeeds exactly when no file fails. */
  lemma AllAddedIffNoFailure(host: Host, folder: MaybeStr, files: seq<string>)
    ensures AllAdded(host, folder, files) <==> FirstFailure(host, folder, files) == |files|
  {
  }

  /**
   * The adds the staging loop performs: one per file, in list order, up to
   * and including the first one that fails (GitAddFailed leaves the loop).
   */
  function AddEach(host: Host, folder: MaybeStr, files: seq<string>): (ops: seq<Op>)
    ensures |ops| <= |files| && (|ops| == 0 <==> files == [])
    ensures forall i :: 0 <= i < |ops| ==> ops[i] == Add(folder, files[i])
    ensures AllAdded(host, folder, files) <==> |ops| == |files| && forall i :: 0 <= i < |ops| ==> host.succeeds(ops[i])
    ensures !AllAdded(host, folder, files) ==>
      !host.succeeds(ops[|ops| - 1]) && forall i :: 0 <= i < |ops| - 1 ==> host.succeeds(ops[i])
  {
    var k := FirstFailure(host, folder, files);
    Adds(folder, files[..if k < |files| then k + 1 else k])
  }

  /** One more successful add extends the prefix of added files. */
  lemma AddedOneMore(host: Host, folder: MaybeStr, files: seq<string>, i: nat)
    requires i < |files| && AllAdded(host, folder, files[..i]) && host.succeeds(Add(folder, files[i]))
    ensures AllAdded(host, folder, files[..i + 1])
    ensures Adds(folder, files[..i + 1]) == Adds(folder, files[..i]) + [Add(folder, files[i])]
  {
    var prefix, longer := files[..i], files[..i + 1];
    forall j | 0 <= j < |longer| ensures host.succeeds(Add(folder, longer[j])) {
      if j < i { assert longer[j] == prefix[j]; }
    }
  }

  /** The first failing add, after `i` successful ones, ends the loop's adds. */
  lemma FailedAt(host: Host, folder: MaybeStr, files: seq<string>, i: nat)
    requires i < |files| && AllAdded(host, folder, files[..i]) && !host.succeeds(Add(folder, files[i]))
    ensures !AllAdded(host, folder, files)
    ensures AddEach(host, folder, files) == Adds(folder, files[..i]) + [Add(folder, files[i])]
  {
    assert FirstFailure(host, folder, files) == i;
    assert Adds(folder, files[..i + 1]) == Adds(folder, files[..i]) + [Add(folder, files[i])];
  }

  /** When every add succeeded, the loop's adds are one per file. */
  lemma AllDone(host: Host, folder: MaybeStr, files: seq<string>)
    requires AllAdded(host, folder, files[..|files|])
    ensures AllAdded(host, folder, files)
    ensures AddEach(host, folder, files) == Adds(folder, files)
  {
    assert files[..|files|] == files;
    AllAddedIffNoFailure(host, folder, files);
  }

  /**
   * `stage(files, folder)`. The result is a Change exactly when every add
   * succeeds and the repository has a remote; the Change holds the diff, the
   * first remote url, the current branch and the folder.
   */
  function StageRun(host: Host, files: seq<string>, folder: MaybeStr): (run: Run<Option<Change>>)
    ensures run.ops == AddEach(host, folder, files)
    ensures run.result.Some? <==> AllAdded(host, folder, files) && |host.remoteUrls(folder)| > 0
    ensures run.result.Some? ==>
      run.result.value == Change(Some(host.diff(folder)), Some(host.remoteUrls(folder)[0]),
                                 Some(host.currentBranch(folder)), folder)
  {
    var ops := AddEach(host, folder, files);
    if AllAdded(host, folder, files) && |host.remoteUrls(folder)| > 0 then
      var urls := host.remoteUrls(folder);
      Run(Some(FromUnidiffText(Some(host.diff(folder)), Some(urls[0]), Some(host.currentBranch(folder)), folder)), ops)
    else Run(None, ops)
  }

  /** What `listen` does with a ChangeStaged event: nothing when disabled, otherwise stage its files in its folder. */
  function ListenRun(host: Host, enabled: bool, e: Event): (run: Run<Option<Change>>)
    requires e.body.ChangeStaged?
    ensures !enabled ==> run.result.None? && run.ops == []
    ensures enabled ==> run == StageRun(host, e.body.files, e.body.repositoryFolder)
    ensures enabled ==> run.ops == AddEach(host, e.body.repositoryFolder, e.body.files)
    ensures run.result.Some? ==> enabled && run.result.value.repositoryFolder == e.body.repositoryFolder
  {
    if !enabled then Run(None, []) else StageRun(host, e.body.files, e.body.repositoryFolder)
  }

  class Commit {
    const folder: string
    var enabled: bool

    /** The base listener's default for `enabled` is not part of this model, so it is given here. */
    constructor(folder: string, enabled: bool)
      ensures this.folder == folder && this.enabled == enabled
    {
      this.folder := folder;
      this.enabled := enabled;
    }

    /** `listen`: gate on `enabled`, then stage `event.files` in `event.repository_folder`. */
    method Listen(host: Host, event: Event) returns (r: Option<Change>)
      requires event.body.ChangeStaged?
      modifies host
      ensures r == ListenRun(host, enabled, event).result
      ensures host.log == old(host.log) + ListenRun(host, enabled, event).ops
    {
      if !enabled {
        return None;
      }
      r := Stage(host, event.body.files, event.body.repositoryFolder);
    }

    /** `stage`: the per-file add loop, then the remote lookup. */
    method Stage(host: Host, files: seq<string>, folder: MaybeStr) returns (r: Option<Change>)
      modifies host
      ensures r == StageRun(host, files, folder).result
      ensures host.log == old(host.log) + StageRun(host, files, folder).ops
    {
      r := None;
      var i := 0;
      var failed := false;
      while i < |files| && !failed
        invariant 0 <= i <= |files|
        invariant !failed ==> AllAdded(host, folder, files[..i]) && host.log == old(host.log) + Adds(folder, files[..i])
        invariant failed ==> !AllAdded(host, folder, files) && host.log == old(host.log) + AddEach(host, folder, files)
      {
        var added := host.Perform(Add(folder, files[i]));
        if !added {
          failed := true;
          FailedAt(host, folder, files, i);
        } else {
          AddedOneMore(host, folder, files, i);
        }
        i := i + 1;
      }
      if !failed {
        AllDone(host, folder, files);
        var urls := host.remoteUrls(folder);
        if |urls| > 0 {
          r := Some(FromUnidiffText(Some(host.diff(folder)), Some(urls[0]), Some(host.currentBranch(folder)), folder));
        }
      }
    }
  }
}
