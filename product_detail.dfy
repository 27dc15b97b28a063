/** The mobile ProductDetailScreen's quantity picker: a step of +1 or -1
    is applied only when the result stays within [1, 10]. */
module ProductDetail {

  const MinQuantity: int := 1
  const MaxQuantity: int := 10

  /** `handleQuantityChange`: the new quantity, or the old one when the
      step would leave the range. */
  function Changed(quantity: int, increment: int): (r: int)
    ensures MinQuantity <= quantity + increment <= MaxQuantity ==> r == quantity + increment
    ensures !(MinQuantity <= quantity + increment <= MaxQuantity) ==> r == quantity
    ensures MinQuantity <= quantity <= MaxQuantity ==> MinQuantity <= r <= MaxQuantity
  {
    var next := quantity + increment;
    if MinQuantity <= next && next <= MaxQuantity then next else quantity
  }

  /** The quantity after a sequence of presses, in order. */
  function AfterChanges(quantity: int, increments: seq<int>): int
    decreases increments
  {
    if increments == [] then quantity
    else AfterChanges(Changed(quantity, increments[0]), increments[1..])
  }

  /** Starting from any in-range quantity (the screen starts at one), the
      quantity stays in [1, 10] whatever steps are pressed. */
  lemma {:induction false} ChangesStayInRange(quantity: int, increments: seq<int>)
    requires MinQuantity <= quantity <= MaxQuantity
    ensures MinQuantity <= AfterChanges(quantity, increments) <= MaxQuantity
    decreases increments
  {
    if increments != [] {
      ChangesStayInRange(Changed(quantity, increments[0]), increments[1..]);
    }
  }

  /** The minus button is disabled at one or below. */
  predicate MinusDisabled(quantity: int)
  {
    quantity <= MinQuantity
  }

  /** The plus button is disabled at ten or above. */
  predicate PlusDisabled(quantity: int)
  {
    quantity >= MaxQuantity
  }

  /** The buttons are disabled exactly where their step would be refused:
      for an in-range quantity, an enabled button moves it by one and a
      disabled one would leave it unchanged. */
  lemma ButtonsMatchGuard(quantity: int)
    requires MinQuantity <= quantity <= MaxQuantity
    ensures MinusDisabled(quantity) <==> Changed(quantity, -1) == quantity
    ensures PlusDisabled(quantity) <==> Changed(quantity, 1) == quantity
  {
  }

  class ProductDetailState {
    var selectedImage: int
    var selectedSize: string
    var selectedColor: string
    var quantity: int

    ghost predicate Valid()
      reads this
    {
      MinQuantity <= quantity <= MaxQuantity
    }

    constructor ()
      ensures Valid()
      ensures selectedImage == 0 && selectedSize == "" && selectedColor == "" && quantity == 1
    {
      selectedImage := 0;
      selectedSize := "";
      selectedColor := "";
      quantity := 1;
    }

    method HandleQuantityChange(increment: int)
      requires Valid()
      modifies this`quantity
      ensures Valid()
      ensures quantity == Changed(old(quantity), increment)
    {
      var newQuantity := quantity + increment;
      if newQuantity >= MinQuantity && newQuantity <= MaxQuantity {
        quantity := newQuantity;
      }
    }
  }
}
