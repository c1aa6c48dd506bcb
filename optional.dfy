/** Python's `None`-or-value, and `str | None` in particular. */
module Optional {

  datatype Option<+T> = None | Some(value: T)

  /** A Python `str` that may also be `None`. */
  type MaybeStr = Option<string>

  /** What an f-string prints for a `str | None`: the text itself, or "None". */
  function Show(s: MaybeStr): (r: string)
    ensures s.Some? ==> r == s.value
    ensures s.None? ==> r == "None"
  {
    match s
    case Some(t) => t
    case None => "None"
  }
}
