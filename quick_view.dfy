/** The web storefront's QuickViewModal: a quantity picker clamped to
    [1, 10], size and colour selections, and an add-to-cart button that
    forwards the selection to the parent and closes the dialog. Callback
    invocations are modelled as the values the handlers return. */
module QuickViewModal {

  const MinQuantity: int := 1
  const MaxQuantity: int := 10

  /** `Math.max(1, Math.min(10, value))`. */
  function Clamp(value: int): (q: int)
    ensures MinQuantity <= q <= MaxQuantity
    ensures MinQuantity <= value <= MaxQuantity ==> q == value
    ensures value < MinQuantity ==> q == MinQuantity
    ensures value > MaxQuantity ==> q == MaxQuantity
  {
    if value > MaxQuantity then MaxQuantity
    else if value < MinQuantity then MinQuantity
    else value
  }

  /** The minus button is disabled at one or below. */
  predicate MinusDisabled(quantity: int)
  {
    quantity <= MinQuantity
  }

  /** The plus button is disabled at ten or above. */
  predicate PlusDisabled(quantity: int)
  {
    quantity >= MaxQuantity
  }

  /** An enabled minus or plus button moves an in-range quantity by exactly
      one, and the result stays in range. */
  lemma ButtonsStepByOne(quantity: int)
    requires MinQuantity <= quantity <= MaxQuantity
    ensures !MinusDisabled(quantity) ==> Clamp(quantity - 1) == quantity - 1
    ensures !PlusDisabled(quantity) ==> Clamp(quantity + 1) == quantity + 1
  {
  }

  /** The arguments of `onAddToCart(product.id, quantity, selectedSize,
      selectedColor)`. */
  datatype AddToCartCall = AddToCartCall(id: string, quantity: int, size: string, color: string)

  class QuickView {
    const productId: string
    var selectedImage: int
    var quantity: int
    var selectedSize: string
    var selectedColor: string

    /** The quantity is always within the picker's range. */
    ghost predicate Valid()
      reads this
    {
      MinQuantity <= quantity <= MaxQuantity
    }

    constructor (productId: string)
      ensures Valid()
      ensures this.productId == productId
      ensures selectedImage == 0 && quantity == 1 && selectedSize == "" && selectedColor == ""
    {
      this.productId := productId;
      selectedImage := 0;
      quantity := 1;
      selectedSize := "";
      selectedColor := "";
    }

    /** `handleQuantityChange`: store the clamped value. */
    method HandleQuantityChange(value: int)
      modifies this`quantity
      ensures Valid()
      ensures quantity == Clamp(value)
    {
      quantity := Clamp(value);
    }

    method SelectSize(size: string)
      modifies this`selectedSize
      ensures selectedSize == size
    {
      selectedSize := size;
    }

    method SelectColor(color: string)
      modifies this`selectedColor
      ensures selectedColor == color
    {
      selectedColor := color;
    }

    /** `handleAddToCart`: forward exactly the product id and the current
        selection, then ask the parent to close the dialog
        (`onOpenChange(false)`). The forwarded quantity is in range. */
    method HandleAddToCart() returns (call: AddToCartCall, openChange: bool)
      ensures call == AddToCartCall(productId, quantity, selectedSize, selectedColor)
      ensures Valid() ==> MinQuantity <= call.quantity <= MaxQuantity
      ensures !openChange
    {
      call := AddToCartCall(productId, quantity, selectedSize, selectedColor);
      openChange := false;
    }
  }
}
