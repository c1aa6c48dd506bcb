/**
 * The `Change` value object: a unified diff together with the repository
 * url, the branch and the local clone folder it applies to. All four are
 * primary-key attributes, so a Change is identified by its four values, and
 * it travels as a flat dictionary of those four values.
 */
module Changes {
  import opened Optional

  /** Each field is a Python `str` that may be `None` (the folder defaults to `None`). */
  datatype Change = Change(
    unidiffText: MaybeStr,
    repositoryUrl: MaybeStr,
    branch: MaybeStr,
    repositoryFolder: MaybeStr)

  /** The dictionary keys `to_dict` writes and `from_dict` reads. */
  const UnidiffTextKey := "unidiff_text"
  const RepositoryUrlKey := "repository_url"
  const BranchKey := "branch"
  const RepositoryFolderKey := "repository_folder"

  /** A flat dictionary whose values are strings or `None`. */
  type Dict = map<string, MaybeStr>

  /** `dict[key]` on a missing key raises KeyError. */
  datatype KeyError = KeyError(key: string)

  datatype Result<+T> = Success(value: T) | Failure(error: KeyError)

  /** `Change.from_unidiff_text`: builds a Change from its four values. */
  function FromUnidiffText(unidiffText: MaybeStr, repositoryUrl: MaybeStr, branch: MaybeStr,
                           repositoryFolder: MaybeStr): (c: Change)
    ensures c.unidiffText == unidiffText && c.repositoryUrl == repositoryUrl
    ensures c.branch == branch && c.repositoryFolder == repositoryFolder
  {
    Change(unidiffText, repositoryUrl, branch, repositoryFolder)
  }

  /**
   * Identity is the four primary-key attributes: two Changes are the same
   * exactly when all four values agree.
   */
  lemma SameChangeIffSameKey(c: Change, d: Change)
    ensures c == d <==>
      c.unidiffText == d.unidiffText && c.repositoryUrl == d.repositoryUrl &&
      c.branch == d.branch && c.repositoryFolder == d.repositoryFolder
  {
  }

  /**
   * `patch_set`: the diff text handed to the unified-diff parser, or `None`
   * when the Change carries no diff text (the parser is not part of this model).
   */
  function PatchSetSource(c: Change): (r: MaybeStr)
    ensures r.None? <==> c.unidiffText.None?
    ensures r.Some? ==> r.value == c.unidiffText.value
  {
    if c.unidiffText.Some? then Some(c.unidiffText.value) else None
  }

  /**
   * The patch set of a Change built from a diff text is parsed from that very
   * text, and a Change built without one has none, whatever the other values.
   */
  lemma PatchSetOfFromUnidiffText(unidiffText: MaybeStr, repositoryUrl: MaybeStr, branch: MaybeStr,
                                  repositoryFolder: MaybeStr)
    ensures PatchSetSource(FromUnidiffText(unidiffText, repositoryUrl, branch, repositoryFolder)) == unidiffText
  {
  }

  /** `to_dict`: exactly the four keys, each holding its field. */
  function ToDict(c: Change): (d: Dict)
    ensures d.Keys == {UnidiffTextKey, RepositoryUrlKey, BranchKey, RepositoryFolderKey}
    ensures d[UnidiffTextKey] == c.unidiffText && d[RepositoryUrlKey] == c.repositoryUrl
    ensures d[BranchKey] == c.branch && d[RepositoryFolderKey] == c.repositoryFolder
  {
    map[UnidiffTextKey := c.unidiffText, RepositoryUrlKey := c.repositoryUrl,
        BranchKey := c.branch, RepositoryFolderKey := c.repositoryFolder]
  }

  /**
   * `from_dict`: the three first keys are looked up with `dict[...]`, in
   * argument order, so the first missing one raises; the folder is looked up
   * with `dict.get(..., None)`.
   */
  function FromDict(d: Dict): (r: Result<Change>)
    ensures r.Success? <==> UnidiffTextKey in d && RepositoryUrlKey in d && BranchKey in d
    ensures r.Success? ==>
      r.value.unidiffText == d[UnidiffTextKey] && r.value.repositoryUrl == d[RepositoryUrlKey] &&
      r.value.branch == d[BranchKey]
    ensures r.Success? ==>
      r.value.repositoryFolder == (if RepositoryFolderKey in d then d[RepositoryFolderKey] else None)
    ensures r.Failure? ==>
      r.error.key in {UnidiffTextKey, RepositoryUrlKey, BranchKey} && r.error.key !in d
  {
    if UnidiffTextKey !in d then Failure(KeyError(UnidiffTextKey))
    else if RepositoryUrlKey !in d then Failure(KeyError(RepositoryUrlKey))
    else if BranchKey !in d then Failure(KeyError(BranchKey))
    else
      Success(FromUnidiffText(d[UnidiffTextKey], d[RepositoryUrlKey], d[BranchKey],
                              if RepositoryFolderKey in d then d[RepositoryFolderKey] else None))
  }

  /** The dictionary form loses nothing: `from_dict(to_dict(c))` is `c` again. */
  lemma FromDictToDict(c: Change)
    ensures FromDict(ToDict(c)) == Success(c)
  {
    var d := ToDict(c);
    assert UnidiffTextKey in d && RepositoryUrlKey in d && BranchKey in d && RepositoryFolderKey in d;
  }

  /** A dictionary without "repository_folder" gives a Change whose folder is `None`. */
  lemma FromDictWithoutFolder(d: Dict)
    requires UnidiffTextKey in d && RepositoryUrlKey in d && BranchKey in d
    requires RepositoryFolderKey !in d
    ensures FromDict(d).Success? && FromDict(d).value.repositoryFolder == None
  {
  }
}
