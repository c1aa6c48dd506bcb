# pythoneda-shared-artifact, event-chain core

This project models the part of pythoneda-shared-artifact that moves an artifact
through its release chain. Each step is a listener. It consumes one domain event,
runs git (or the flake-update script) on a local clone, and announces the next
event. The chain runs:

ChangeStaged → StagedChangesCommitted → CommittedChangesPushed →
CommittedChangesTagged → TagPushed → ArtifactChangesCommitted →
ArtifactCommitPushed → ArtifactCommitTagged → ArtifactTagPushed →
ArtifactChangesCommitted → …

The model covers these parts:

- the `Change` value: construction, `to_dict`, `from_dict`, and `patch_set` up to the parser;
- the successor table declared by the `listen_*` methods of `Artifact`;
- the shared operations of `ArtifactEventListener`: `own_flake`, `update_version_in_flake` and `tag`;
- every listener, in both generations:
  - the newer per-folder classes with an `enabled` switch;
  - the older class-level listeners without one;
- `LocalArtifact`'s three entry points;
- `HexagonalLayer.all_but`.

The outside world is the class `External.Host`. It keeps a ghost log of every
git or script step performed, in order. Its constant oracles answer the rest:

- whether a step succeeds;
- the file-system snapshot;
- remote urls, branch, diff, next patch version and commit output;
- the repository url and revision;
- HTTP status.

Each handler is a method that `modifies` the host. Each is proved against a
pure function that returns a `Run(result, ops)`. The method's result is that
run's result, and the log grows by exactly the run's ops. The properties are
stated on those functions. The fresh identifier that an emitted event receives
is a parameter `newId`. The relation `Artifact.Follows` states the link every
emitted event keeps:

- it has the fresh identifier;
- it names the consumed event as its cause;
- it is of the successor kind.

Where the code and its declared return types and docstrings disagree, the model follows the code:

- `Commit.stage` wraps the staged Change in a `ChangeStaged` event, not a
  `StagedChangesCommitted`, and it never commits. The model therefore returns the
  Change itself (`Commit.StageRun`) and emits no event.
- `update_version_in_flake` ends with `return True`, not with the result it computes.
  The model keeps that: a run of the script is reported as an update.

Several lines of the code use names their file never imports. Python only resolves such a
name when the line runs, so each of these paths raises `NameError` as written:

- `commit.py` uses `CommitPush` at line 60 and `Change` at line 81;
- `artifact_event_listener.py` uses `Artifact` at lines 96-97, when the flake script fails;
- `artifact_event_listener.py` uses `CommittedChangesPushedListener` at lines 123-138, when an add, commit or tag fails.

The model follows what each line evidently means: log, then return the value the code
goes on to return. The members affected are listed one by one under "## Left out".

## Model

| member | source | states |
|---|---|---|
| Optional.Show | pythoneda/shared/artifact/artifact_commit_from_tag_pushed.py:189 | an interpolated optional string is its text, or "None" |
| Paths.Join | pythoneda/shared/artifact/artifact_event_listener.py:63 | POSIX join: an absolute second part wins; otherwise the result starts with the first part and ends with the second |
| Paths.Dirname | pythoneda/shared/artifact/artifact_commit_from_tag_pushed.py:140 | POSIX dirname: a prefix of the path up to its last slash, with only slashes dropped before that slash. An all-slash head such as "/" is kept whole, and the result is empty only when the path has no slash |
| Paths.ChildOf | pythoneda/shared/artifact/artifact_event_listener.py:63 | a slash-free name joined under a folder has that folder as its dirname and the name as its basename |
| Paths.SiblingOf | pythoneda/shared/artifact/artifact_commit_from_tag_pushed.py:140 | joining a slash-free name onto the parent of a folder gives an entry of that same parent |
| Changes.FromUnidiffText | pythoneda/shared/artifact/change.py:116-137 | the Change holds the four given values |
| Changes.SameChangeIffSameKey | pythoneda/shared/artifact/change.py:64-102 | two Changes are equal exactly when their four primary-key attributes agree |
| Changes.PatchSetSource | pythoneda/shared/artifact/change.py:104-114 | the parser receives the diff text, and a Change without diff text has no patch set |
| Changes.PatchSetOfFromUnidiffText | pythoneda/shared/artifact/change.py:104-137 | the patch set of a Change built from a diff text is parsed from that same text, whatever the other values |
| Changes.ToDict | pythoneda/shared/artifact/change.py:178-189 | the dictionary has exactly the four keys, each holding its field |
| Changes.FromDict | pythoneda/shared/artifact/change.py:191-205 | it succeeds exactly when the three required keys are present; it copies them and reads the folder with a None default; otherwise it fails with a missing required key |
| Changes.FromDictToDict | pythoneda/shared/artifact/change.py:178-205 | from_dict(to_dict(c)) gives back c |
| Changes.FromDictWithoutFolder | pythoneda/shared/artifact/change.py:204 | without "repository_folder", the rebuilt Change has folder None |
| Artifact.Successor | pythoneda/shared/artifact/artifact.py:110-219 | the kind each listen_* method returns for the kind it consumes. No kind is its own successor, nothing leads back to ChangeStaged, and artifact kinds lead only to artifact kinds |
| Artifact.ChainLeavesTheDomainSide | pythoneda/shared/artifact/artifact.py:110-165 | from StagedChangesCommitted the chain visits CommittedChangesPushed, CommittedChangesTagged and TagPushed, then stays on artifact kinds from step 4 on |
| Artifact.ArtifactKindsAreClosed | pythoneda/shared/artifact/artifact.py:166-219 | every walk from an artifact kind stays among artifact kinds |
| Artifact.AfterAdds | pythoneda/shared/artifact/artifact.py:110-219 | walking m steps and then n steps is walking m + n steps |
| Artifact.ArtifactLoop | pythoneda/shared/artifact/artifact.py:166-219 | the artifact kinds form a cycle of exactly four |
| Artifact.TwoWaysIntoArtifactCommits | pythoneda/shared/artifact/artifact.py:153-219 | ArtifactChangesCommitted follows TagPushed and ArtifactTagPushed, and no other kind |
| Artifact.Forward | pythoneda/shared/artifact/tag_push.py:62-73 | a push listener's event follows the consumed one and copies its whole payload |
| Artifact.Tagged | pythoneda/shared/artifact/commit_tag.py:63-73 | a tag listener's event follows the consumed one; it carries the new version, the commit, and the Change's url, branch and folder |
| External.Host.Perform | pythoneda/shared/artifact/commit_push.py:70-86 | a git step's outcome is the host's answer for it, and the step is appended to the log |
| External.Host.Commit | pythoneda/shared/artifact/artifact_commit_from_tag_pushed.py:188-190 | a commit gives its hash and diff exactly when it succeeds, and it is logged |
| External.Host.IncreasePatch | pythoneda/shared/artifact/artifact_event_listener.py:110-111 | bumping the patch gives the next patch version and is logged |
| ArtifactEventListener.OwnFlake | pythoneda/shared/artifact/artifact_event_listener.py:55-63 | true exactly when the folder's root flake exists; OwnFlakeProbesRootFlake proves that the path probed is flake.nix directly in the folder |
| ArtifactEventListener.OwnFlakeProbesRootFlake | pythoneda/shared/artifact/artifact_event_listener.py:55-63 | the path own_flake probes is the folder's root flake: its parent is the folder itself and its name is flake.nix |
| ArtifactEventListener.UpdateVersionInFlake | pythoneda/shared/artifact/artifact_event_listener.py:65-100 | the update script runs once on the flake and version, and the result is True, as the method's last line returns (the NameError of a failing script is listed under Left out) |
| ArtifactEventListener.TagRun | pythoneda/shared/artifact/artifact_event_listener.py:102-140 | the version is always the bumped patch. Without an own flake only the bump is performed. With one, the bump, update, add, commit and tag run in order up to the first failure, and the result is None exactly when the add, commit or tag fails |
| ArtifactEventListener.Tag | pythoneda/shared/artifact/artifact_event_listener.py:102-140 | performs exactly TagRun's steps and returns its result |
| ArtifactEventListener.PushStep | pythoneda/shared/artifact/commit_push.py:53-68 | disabled: nothing happens. Enabled: exactly one push, and the forwarded event is emitted exactly when it succeeds |
| ArtifactEventListener.TagStep | pythoneda/shared/artifact/commit_tag.py:51-73 | disabled: nothing happens, whatever the Change's folder. Enabled: exactly the tag steps on the Change's folder, and the tagged event is emitted exactly when tagging gives a version |
| Commit.Adds | pythoneda/shared/artifact/commit.py:76-77 | one add per file, in list order |
| Commit.AddEach | pythoneda/shared/artifact/commit.py:74-90 | adds run in order up to and including the first failure; all are performed exactly when all succeed |
| Commit.FirstFailure | pythoneda/shared/artifact/commit.py:76-77 | every file before the returned index is added successfully, and the file at that index, if any, fails |
| Commit.AllAddedIffNoFailure | pythoneda/shared/artifact/commit.py:76-77 | all adds succeed exactly when no file fails |
| Commit.AddedOneMore | pythoneda/shared/artifact/commit.py:76-77 | one more successful add extends the added prefix by that file |
| Commit.FailedAt | pythoneda/shared/artifact/commit.py:76-90 | the first failing add is the last one performed |
| Commit.AllDone | pythoneda/shared/artifact/commit.py:76-78 | when every add succeeded, the adds are one per file |
| Commit.StageRun | pythoneda/shared/artifact/commit.py:63-91 | a Change comes back exactly when all adds succeed and there is a remote; it holds the diff, the first remote url, the branch and the folder |
| Commit.ListenRun | pythoneda/shared/artifact/commit.py:50-61 | disabled: nothing happens. Enabled: exactly stage on the event's files and folder, and a staged Change keeps the event's folder |
| Commit.Commit.constructor | pythoneda/shared/artifact/commit.py:42-48 | a new handler keeps the folder, and its enabled flag is the given one |
| Commit.Commit.Listen | pythoneda/shared/artifact/commit.py:50-61 | performs ListenRun's steps and returns its result |
| Commit.Commit.Stage | pythoneda/shared/artifact/commit.py:63-91 | the loop performs StageRun's steps and returns its result |
| CommitPush.CommitPush.constructor | pythoneda/shared/artifact/commit_push.py:44-51 | a new handler keeps the folder and is enabled |
| CommitPush.CommitPush.Listen | pythoneda/shared/artifact/commit_push.py:53-68 | PushStep with a push of the Change's folder |
| CommitPush.CommitPush.PushCommits | pythoneda/shared/artifact/commit_push.py:70-86 | one push of the folder, whose outcome is the result |
| CommitTag.CommitTag.constructor | pythoneda/shared/artifact/commit_tag.py:42-49 | a new handler keeps the folder and is enabled |
| CommitTag.CommitTag.Listen | pythoneda/shared/artifact/commit_tag.py:51-73 | TagStep on the Change's folder; a disabled handler needs no folder |
| TagPush.TagPush.constructor | pythoneda/shared/artifact/tag_push.py:40-47 | a new handler keeps the folder and is enabled |
| TagPush.TagPush.Listen | pythoneda/shared/artifact/tag_push.py:49-73 | PushStep with a tag push of the event's folder |
| TagPush.TagPush.PushTagsOf | pythoneda/shared/artifact/tag_push.py:75-89 | one tag push of the folder, whose outcome is the result |
| ArtifactCommitPush.ArtifactCommitPush.constructor | pythoneda/shared/artifact/artifact_commit_push.py:43-50 | a new handler keeps the folder and is enabled |
| ArtifactCommitPush.ArtifactCommitPush.Listen | pythoneda/shared/artifact/artifact_commit_push.py:52-64 | PushStep with a push of the Change's folder |
| ArtifactCommitPush.ArtifactCommitPush.PushArtifactCommit | pythoneda/shared/artifact/artifact_commit_push.py:66-84 | pushes the Change's folder and forwards ArtifactCommitPushed exactly when the push succeeds |
| ArtifactCommitPushedListener.Listen | pythoneda/shared/artifact/artifact_commit_pushed_listener.py:48-59 | always tags the Change's folder (TagStep, enabled) |
| ArtifactCommitPushedListener.TagArtifact | pythoneda/shared/artifact/artifact_commit_pushed_listener.py:61-80 | TagStep, enabled, giving ArtifactCommitTagged |
| ArtifactTagPush.ArtifactTagPush.constructor | pythoneda/shared/artifact/artifact_tag_push.py:43-50 | a new handler keeps the folder and is enabled |
| ArtifactTagPush.ArtifactTagPush.Listen | pythoneda/shared/artifact/artifact_tag_push.py:52-63 | PushStep with a tag push of the event's folder; the enabled check happens in PushTagArtifact |
| ArtifactTagPush.ArtifactTagPush.PushTagArtifact | pythoneda/shared/artifact/artifact_tag_push.py:65-89 | PushStep with a tag push of the event's folder; the enabled check sits here |
| StagedChangesCommittedListener.Listen | pythoneda/shared/artifact/staged_changes_committed_listener.py:50-63 | always pushes all branches of the Change's folder, and forwards CommittedChangesPushed on success |
| StagedChangesCommittedListener.PushCommits | pythoneda/shared/artifact/staged_changes_committed_listener.py:65-81 | one push-all of the folder, whose outcome is the result |
| CommittedChangesPushedListener.Listen | pythoneda/shared/artifact/committed_changes_pushed_listener.py:49-69 | always tags the Change's folder (TagStep, enabled) |
| CommittedChangesTaggedListener.Listen | pythoneda/shared/artifact/committed_changes_tagged_listener.py:47-68 | always pushes the tags of the event's folder, and forwards TagPushed on success |
| CommittedChangesTaggedListener.PushTagsOf | pythoneda/shared/artifact/committed_changes_tagged_listener.py:70-85 | one tag push of the folder, whose outcome is the result |
| ArtifactChangesCommittedListener.Listen | pythoneda/shared/artifact/artifact_changes_committed_listener.py:50-61 | always pushes all branches of the Change's folder, and forwards ArtifactCommitPushed on success |
| ArtifactChangesCommittedListener.PushArtifactCommit | pythoneda/shared/artifact/artifact_changes_committed_listener.py:63-81 | PushStep, enabled, with a push-all of the Change's folder |
| ArtifactCommitTaggedListener.Listen | pythoneda/shared/artifact/artifact_commit_tagged_listener.py:49-60 | always pushes the tags of the event's folder, and forwards ArtifactTagPushed on success |
| ArtifactCommitTaggedListener.PushTagArtifact | pythoneda/shared/artifact/artifact_commit_tagged_listener.py:62-84 | PushStep, enabled, with a tag push of the event's folder |
| ArtifactCommitFromTagPushed.CommitFlakeRun | pythoneda/shared/artifact/artifact_commit_from_tag_pushed.py:169-202 | add, then commit ("New tag … in …"). The result is a hash and Change exactly when both succeed, and the Change holds the diff, the repository url and revision, and the folder |
| ArtifactCommitFromTagPushed.CommitArtifactChanges | pythoneda/shared/artifact/artifact_commit_from_tag_pushed.py:169-202 | performs CommitFlakeRun's steps and returns its result |
| ArtifactCommitFromTagPushed.UpdateFlakeRun | pythoneda/shared/artifact/artifact_commit_from_tag_pushed.py:92-100 | updates the flake, then commits. ArtifactChangesCommitted is announced exactly when the commit gives a non-empty hash |
| ArtifactCommitFromTagPushed.UpdateFlakeAndCommit | pythoneda/shared/artifact/artifact_commit_from_tag_pushed.py:94-100 | performs UpdateFlakeRun's steps and returns its result |
| ArtifactCommitFromTagPushed.ArtifactRepositoryFolderOf | pythoneda/shared/artifact/artifact_commit_from_tag_pushed.py:125-148 | gives the sibling folder named after the artifact repository, exactly when it exists, is a directory and holds .git |
| ArtifactCommitFromTagPushed.ArtifactFolderIsSibling | pythoneda/shared/artifact/artifact_commit_from_tag_pushed.py:139-140 | the artifact folder candidate lies in the same parent folder as the domain clone |
| ArtifactCommitFromTagPushed.FlakePathInArtifactRepository | pythoneda/shared/artifact/artifact_commit_from_tag_pushed.py:150-167 | a flake is found exactly when the probed file exists. It is named flake.nix and sits directly in the folder named after the domain repository, which, for a plain repository name, sits directly in the artifact repository's folder |
| ArtifactCommitFromTagPushed.FileInSubfolder | pythoneda/shared/artifact/artifact_commit_from_tag_pushed.py:164 | a file joined under folder/sub lies in sub, and a plain sub lies directly in folder |
| ArtifactCommitFromTagPushed.ArtifactCommitFromTagPushed.constructor | pythoneda/shared/artifact/artifact_commit_from_tag_pushed.py:49-56 | a new handler keeps the folder and is enabled |
| ArtifactCommitFromTagPushed.ArtifactCommitFromTagPushed.UpdateArtifactVersionRun | pythoneda/shared/artifact/artifact_commit_from_tag_pushed.py:74-102 | nothing happens if the repository is outside the decision space, has no flake, or its flake already records the tag; otherwise UpdateFlakeRun in this folder |
| ArtifactCommitFromTagPushed.ArtifactCommitFromTagPushed.Listen | pythoneda/shared/artifact/artifact_commit_from_tag_pushed.py:58-72 | disabled: nothing happens. Enabled: UpdateArtifactVersionRun |
| ArtifactCommitFromTagPushed.ArtifactCommitFromTagPushed.UpdateArtifactVersion | pythoneda/shared/artifact/artifact_commit_from_tag_pushed.py:74-102 | performs UpdateArtifactVersionRun's steps and returns its result |
| TagPushedListener.ArtifactRepositoryUrlFor | pythoneda/shared/artifact/tag_pushed_listener.py:113-126 | gives the url suffixed with "-artifact", exactly when that url exists |
| TagPushedListener.ArtifactFlake | pythoneda/shared/artifact/tag_pushed_listener.py:84-99 | the artifact folder and flake are found exactly when the url, the folder and the flake lookups all succeed |
| TagPushedListener.UpdateArtifactVersionRun | pythoneda/shared/artifact/tag_pushed_listener.py:70-111 | nothing happens unless the flake is found; then UpdateFlakeRun in the artifact folder, and an emitted event follows the TagPushed event |
| TagPushedListener.Listen | pythoneda/shared/artifact/tag_pushed_listener.py:55-68 | performs UpdateArtifactVersionRun's steps and returns its result |
| TagPushedListener.UpdateArtifactVersion | pythoneda/shared/artifact/tag_pushed_listener.py:70-111 | performs UpdateArtifactVersionRun's steps and returns its result |
| LocalArtifact.LocalArtifact.constructor | pythoneda/shared/artifact/local_artifact.py:50-105 | keeps the repository folder |
| LocalArtifact.LocalArtifact.CommitPush | pythoneda/shared/artifact/local_artifact.py:145-155 | a fresh, enabled CommitPush handles the event |
| LocalArtifact.LocalArtifact.CommitTag | pythoneda/shared/artifact/local_artifact.py:157-166 | a fresh, enabled CommitTag handles the event |
| LocalArtifact.LocalArtifact.TagPush | pythoneda/shared/artifact/local_artifact.py:168-177 | a fresh, enabled TagPush handles the event |
| LocalArtifact.LocalChain | pythoneda/shared/artifact/local_artifact.py:145-177 | commit_push, commit_tag and tag_push take a StagedChangesCommitted to a TagPushed that carries the bumped version and the Change's folder |
| HexagonalLayer.Without | pythoneda/shared/artifact/hexagonal_layer.py:50 | keeps exactly the layers other than the given one |
| HexagonalLayer.AllBut | pythoneda/shared/artifact/hexagonal_layer.py:44-50 | the two other layers, each present, and not the layer itself |
| HexagonalLayer.AllButKeepsOrder | pythoneda/shared/artifact/hexagonal_layer.py:40-50 | the remaining layers come in declaration order |
| HexagonalLayer.Name | pythoneda/shared/artifact/hexagonal_layer.py:52-58 | a layer's string is its member name |
| HexagonalLayer.NameIsInjective | pythoneda/shared/artifact/hexagonal_layer.py:52-58 | distinct layers have distinct names |

## Left out

- Asynchrony: every `async` handler is modelled as a sequential step. Logging and console output are not modelled.
- Git, the flake-update script and HTTP are oracles on `External.Host`. A step's outcome depends only on the step, not on earlier steps.
- `Change.to_json` and `Change.from_json`: JSON encoding is not modelled. The round trip is stated on the dictionary form.
- `Change.from_unidiff_file` reads a file, and `Change._parse_diff` is the unidiff parser. Neither is modelled, and `patch_set` stops at the text handed to the parser.
- `stage_input_update.py`, `artifact_commit_from_artifact_tag_pushed.py` and `artifact_tag_pushed_listener.py` are not part of this model. They use names their files never define.
- `repository_folder_helper.py`, and `LocalArtifact.find_out_version` and `find_out_repository_folder`, which only delegate to it, are not part of this model. The helper is a file-system convention outside the chain.
- `artifact_repository.py`, `python_package.py`, `architectural_role.py`, `pescio_space.py`, `__init__.py`, and the constructor arguments that `LocalArtifact` passes to its base class, are not part of this model.
- Inheritance: the base class shown has neither a folder nor an `enabled` flag. Each handler declares both itself. The classes that set `_enabled = True` start enabled. `Commit` sets nothing, so its constructor takes the flag as a parameter.
- The older listeners build their instance with `cls()`. The model uses module-level methods, with no instance.
- `refers_to_my_decision_space`, `flake_path` and `retrieve_version_in_flake` are not defined in the files shown. They are oracle fields of `ArtifactCommitFromTagPushed`.
- TagPushedListener.UpdateArtifactVersion: models only the path where the domain folder has no flake of its own. On the other path `artifact_repo_url` is never bound.
- ArtifactEventListener.TagRun: requires a folder. A folder of `None` would make `os.path.join` raise, and no exception path is modelled.
- Commit.StageRun: exceptions other than a failed `git add` (from the remote, diff or branch queries) are not modelled.
- Paths.Join and Paths.Dirname: only POSIX `os.path.join` and `dirname` are modelled, with no normalisation.
- UpdateVersionInFlake (ArtifactEventListener.UpdateVersionInFlake): a failing script raises `NameError` at artifact_event_listener.py:96, because `Artifact` is not imported. The model returns True, as line 100 does, and does not model the logging.
- TagRun (ArtifactEventListener.TagRun): a failing script raises `NameError` (line 96), and so does a failed add, commit or tag (lines 123-138, `CommittedChangesPushedListener` is not imported). The model carries on after the script and gives `None` after a failed step.
- Tag (ArtifactEventListener.Tag): performs TagRun's steps, so it has TagRun's gap.
- TagStep (ArtifactEventListener.TagStep): builds on TagRun, so it has TagRun's gap.
- StageRun (Commit.StageRun): when every add succeeds and a remote exists, line 81 raises `NameError`, because `Change` is not imported. The model returns the Change that line builds.
- ListenRun (Commit.ListenRun): line 60 raises `NameError` before any add, because `CommitPush` is not imported. The model stages the files as the method goes on to do.
- Listen (Commit.Commit.Listen): performs ListenRun's steps, so it has ListenRun's gap.
- Stage (Commit.Commit.Stage): performs StageRun's steps, so it has StageRun's gap.
- UpdateFlakeRun (ArtifactCommitFromTagPushed.UpdateFlakeRun): a failing flake script raises `NameError` out of `update_version_in_flake` (artifact_commit_from_tag_pushed.py:94). The model goes on to add and commit.
- UpdateFlakeAndCommit (ArtifactCommitFromTagPushed.UpdateFlakeAndCommit): performs UpdateFlakeRun's steps, so it has UpdateFlakeRun's gap.
- UpdateArtifactVersionRun (ArtifactCommitFromTagPushed.ArtifactCommitFromTagPushed.UpdateArtifactVersionRun and TagPushedListener.UpdateArtifactVersionRun): builds on UpdateFlakeRun, so it has UpdateFlakeRun's gap.
- UpdateArtifactVersion (ArtifactCommitFromTagPushed.ArtifactCommitFromTagPushed.UpdateArtifactVersion and TagPushedListener.UpdateArtifactVersion): performs UpdateArtifactVersionRun's steps, so it has that gap. It also has the own-flake gap listed above.
- Listen (CommitTag.CommitTag.Listen): when enabled it builds on TagStep, so it has TagRun's gap.
- Listen (CommittedChangesPushedListener.Listen): builds on TagStep, so it has TagRun's gap.
- Listen (ArtifactCommitPushedListener.Listen): builds on TagStep, so it has TagRun's gap.
- TagArtifact (ArtifactCommitPushedListener.TagArtifact): builds on TagStep, so it has TagRun's gap.
- CommitTag (LocalArtifact.LocalArtifact.CommitTag): runs CommitTag.CommitTag.Listen, so it has TagRun's gap.
- Listen (ArtifactCommitFromTagPushed.ArtifactCommitFromTagPushed.Listen): when enabled it builds on UpdateArtifactVersionRun, so it has UpdateFlakeRun's gap.
- Listen (TagPushedListener.Listen): performs UpdateArtifactVersionRun's steps, so it has UpdateFlakeRun's gap. Like UpdateArtifactVersion, it requires a domain folder without a flake of its own. On the other path `artifact_repo_url` is never bound.
