/** JavaScript's `value || current` fallback, as the backend's partial
    updates use it: a missing field (`None`) and a falsy value keep the
    current one. */
module Js {
  import opened Seqs

  /** For a string: missing and "" are falsy. */
  function TextOr(value: Option<string>, current: string): (r: string)
    ensures value.Some? && value.value != "" ==> r == value.value
    ensures value.None? || value.value == "" ==> r == current
  {
    if value.Some? && value.value != "" then value.value else current
  }

  /** For a number: missing and 0 are falsy. */
  function NumberOr(value: Option<int>, current: int): (r: int)
    ensures value.Some? && value.value != 0 ==> r == value.value
    ensures value.None? || value.value == 0 ==> r == current
  {
    if value.Some? && value.value != 0 then value.value else current
  }

  /** For an array: an array, even an empty one, is truthy. */
  function ListOr<T>(value: Option<seq<T>>, current: seq<T>): (r: seq<T>)
    ensures value.Some? ==> r == value.value
    ensures value.None? ==> r == current
  {
    if value.Some? then value.value else current
  }
}
