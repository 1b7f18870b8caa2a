// The shared vocabulary of the dictionary packages: the identities of the
// four supported dictionaries, the `ErrNotFound` sentinel and the
// result shape every `Lookup` returns.

module Dict {

  datatype Option<+T> = None | Some(value: T)

  /** The errors a lookup can report: the sentinel `ErrNotFound`, or any other
      (transient) error, such as a failed HTTP visit. */
  datatype Err = ErrNotFound | ErrOther(reason: string)

  /** `(Word, error)` as returned by a dictionary's `Lookup`. */
  datatype Result<+T> = Ok(value: T) | Fail(err: Err)

  /** The dictionary identities `dict.Collins`, `dict.Webster`, `dict.Dictcn`
      and `dict.BingDict`. */
  datatype Dictionary = Collins | Webster | Dictcn | BingDict

  /** The outcome rule shared by every scraping `Lookup`: a failed visit is
      returned as is; otherwise the lookup failed to find the word exactly
      when no headword was captured. */
  function Conclude<T>(visitErr: Option<string>, headword: string, out: T): (r: Result<T>)
    ensures visitErr.Some? ==> r == Fail(ErrOther(visitErr.value))
    ensures visitErr.None? ==> (r == Fail(ErrNotFound) <==> headword == "")
    ensures r.Ok? <==> visitErr.None? && headword != ""
    ensures r.Ok? ==> r.value == out
  {
    match visitErr
    case Some(e) => Fail(ErrOther(e))
    case None => if headword == "" then Fail(ErrNotFound) else Ok(out)
  }
}
