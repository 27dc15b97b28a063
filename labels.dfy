/** The singular/plural noun the screens print after a count. */
module Labels {

  /** `count === 1 ? "item" : "items"`. */
  function CountNoun(count: int): (noun: string)
    ensures noun == "item" <==> count == 1
    ensures noun == "item" || noun == "items"
  {
    if count == 1 then "item" else "items"
  }
}
