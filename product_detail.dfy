/**
 * The product detail page (frontend/src/pages/ProductDetail.tsx): the state the
 * component keeps, the way loading a product picks the initial size and colour,
 * the quantity stepper, and the guard in front of the cart's `addToCart`.
 */
module ProductDetailPage {
  import opened Types
  import opened Wrappers
  import opened CartContext

  /** `list[0] || ''`: the first entry, or "" for an empty list. */
  function FirstOrEmpty(list: seq<string>): (r: string)
    ensures r == "" || r in list
    ensures list != [] ==> r == list[0]
    ensures r == "" <==> list == [] || list[0] == ""
  {
    if list == [] then "" else list[0]
  }

  /** The "-" button: one less, but never below 1. */
  function Decremented(q: int): (r: int)
    ensures r >= 1
    ensures q > 1 ==> r == q - 1
    ensures q <= 2 ==> r == 1
  {
    if q - 1 > 1 then q - 1 else 1
  }

  /** The "+" button: one more, without an upper bound (the stock count is not consulted). */
  function Incremented(q: int): (r: int)
    ensures r > q
    ensures r == q + 1
  {
    q + 1
  }

  /** From any quantity of at least 1, "+" then "-" goes back to where it was. */
  lemma DecrementUndoesIncrement(q: int)
    requires q >= 1
    ensures Decremented(Incremented(q)) == q
  {
  }

  /** "-" then "+" goes back too, except at 1, where "-" had nothing to take away. */
  lemma IncrementUndoesDecrement(q: int)
    requires q >= 1
    ensures Incremented(Decremented(q)) == if q == 1 then 2 else q
  {
  }

  /** What a click on "Add to Cart" did. */
  datatype AddOutcome = NoProduct | MissingSelection | Added

  /** The state of one mounted ProductDetail component; `cart` is the shared cart store from the context. */
  class ProductDetail {
    var product: Option<Product>
    var isLoading: bool
    var selectedSize: string
    var selectedColor: string
    var quantity: int
    var selectedImage: string
    const cart: CartStore

    /**
     * What every handler keeps: the quantity is at least 1, and each selection
     * is either empty or one of the loaded product's options.
     */
    ghost predicate Valid()
      reads this
    {
      && quantity >= 1
      && (product.None? ==> selectedSize == "" && selectedColor == "")
      && (product.Some? ==> selectedSize == "" || selectedSize in product.value.sizes)
      && (product.Some? ==> selectedColor == "" || selectedColor in product.value.colors)
    }

    /** The `useState` initial values: nothing loaded yet, quantity 1. */
    constructor (cart: CartStore)
      ensures Valid()
      ensures this.cart == cart
      ensures product == None && isLoading
      ensures selectedSize == "" && selectedColor == "" && selectedImage == ""
      ensures quantity == 1
    {
      this.cart := cart;
      product, isLoading := None, true;
      selectedSize, selectedColor, selectedImage := "", "", "";
      quantity := 1;
    }

    /**
     * `fetchProduct`, with the response as a parameter (None when the request
     * throws). A loaded product replaces the current one and selects its first
     * size, first colour and main image; a failure changes nothing but the
     * loading flag. The quantity is never reset.
     */
    method FetchProduct(response: Option<Product>)
      requires Valid()
      modifies this
      ensures Valid()
      ensures !isLoading && quantity == old(quantity)
      ensures response.Some? ==>
        && product == response
        && selectedSize == FirstOrEmpty(response.value.sizes)
        && selectedColor == FirstOrEmpty(response.value.colors)
        && selectedImage == response.value.imageUrl
      ensures response.None? ==>
        && product == old(product)
        && selectedSize == old(selectedSize)
        && selectedColor == old(selectedColor)
        && selectedImage == old(selectedImage)
    {
      if response.Some? {
        var data := response.value;
        product := Some(data);
        selectedSize := FirstOrEmpty(data.sizes);
        selectedColor := FirstOrEmpty(data.colors);
        selectedImage := data.imageUrl;
      }
      isLoading := false;
    }

    /** A size button; the buttons are drawn from the loaded product's sizes. */
    method SelectSize(size: string)
      requires Valid() && product.Some? && size in product.value.sizes
      modifies this
      ensures Valid()
      ensures selectedSize == size
      ensures product == old(product) && selectedColor == old(selectedColor) && quantity == old(quantity)
    {
      selectedSize := size;
    }

    /** A colour button; the buttons are drawn from the loaded product's colours. */
    method SelectColor(color: string)
      requires Valid() && product.Some? && color in product.value.colors
      modifies this
      ensures Valid()
      ensures selectedColor == color
      ensures product == old(product) && selectedSize == old(selectedSize) && quantity == old(quantity)
    {
      selectedColor := color;
    }

    /** The "-" button. */
    method Decrement()
      requires Valid()
      modifies this
      ensures Valid()
      ensures quantity == Decremented(old(quantity))
      ensures product == old(product) && selectedSize == old(selectedSize) && selectedColor == old(selectedColor)
    {
      quantity := Decremented(quantity);
    }

    /** The "+" button. */
    method Increment()
      requires Valid()
      modifies this
      ensures Valid()
      ensures quantity == Incremented(old(quantity))
      ensures product == old(product) && selectedSize == old(selectedSize) && selectedColor == old(selectedColor)
    {
      quantity := Incremented(quantity);
    }

    /** `disabled={!product.inStock}`: the only stock check on the way to the cart. */
    function AddButtonEnabled(): (b: bool)
      reads this
      ensures b ==> product.Some?
      ensures product.Some? ==> (b <==> product.value.inStock)
    {
      product.Some? && product.value.inStock
    }

    /**
     * `handleAddToCart`. Without a product, or with an empty size or colour, the
     * cart is left exactly as it was; otherwise the current product, quantity
     * and selections go to `addToCart` once. The handler itself does not look
     * at `inStock`.
     */
    method HandleAddToCart() returns (outcome: AddOutcome)
      requires Valid()
      modifies cart
      ensures outcome == NoProduct <==> product.None?
      ensures outcome == MissingSelection <==> product.Some? && (selectedSize == "" || selectedColor == "")
      ensures outcome == Added <==> product.Some? && selectedSize != "" && selectedColor != ""
      ensures outcome != Added ==>
        cart.items == old(cart.items) && cart.totalItems == old(cart.totalItems) && cart.totalPrice == old(cart.totalPrice)
      ensures outcome == Added ==>
        && cart.Valid()
        && cart.items == Merged(old(cart.items), CartItem(product.value, quantity, selectedSize, selectedColor))
        && (old(UniqueKeys(cart.items)) ==> UniqueKeys(cart.items))
        && (old(PositiveQuantities(cart.items)) ==> PositiveQuantities(cart.items))
    {
      if product.None? {
        return NoProduct;
      }
      if selectedSize == "" || selectedColor == "" {
        return MissingSelection;
      }
      ghost var before := cart.items;
      cart.AddToCart(product.value, quantity, selectedSize, selectedColor);
      if PositiveQuantities(before) {
        MergePreservesPositive(before, CartItem(product.value, quantity, selectedSize, selectedColor));
      }
      return Added;
    }
  }

  /**
   * A product listed without sizes (or without colours) keeps that selection
   * empty whatever the buttons do, since there is no option to choose, so the
   * page can never hand it to the cart.
   */
  lemma NoOptionsNoSelection(page: ProductDetail)
    requires page.Valid() && page.product.Some?
    requires page.product.value.sizes == [] || page.product.value.colors == []
    ensures page.selectedSize == "" || page.selectedColor == ""
  {
  }
}
