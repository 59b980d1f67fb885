/**
 * The cart slice as the store holds it: one state object whose reducers
 * update its list of items and its cached grand total in place. Each
 * reducer returns the notification it raises, if it raises one.
 */
module CartSlice {
  import opened CartModel
  import CartProperties

  class CartState {
    var cart: seq<Item>
    var totalPrice: int

    /** The invariants the reducers keep: the cached grand total is the fold
        over the current list, and no key occurs twice. */
    ghost predicate Valid()
      reads this
    {
      totalPrice == CalculateTotalPrice(cart) && Unique(cart)
    }

    /** `initialState`: an empty cart with a zero total. */
    constructor ()
      ensures cart == [] && totalPrice == 0
      ensures Valid()
    {
      cart := [];
      totalPrice := 0;
    }

    /** `addProduct`: bump the first entry with the payload's key, or append
        the payload; then recompute the grand total. */
    method AddProduct(payload: Item) returns (notice: Notice)
      modifies this
      ensures cart == CartModel.AddProduct(old(cart), payload)
      ensures totalPrice == CalculateTotalPrice(cart)
      ensures old(Valid()) ==> Valid()
      ensures notice.variant == Success
      ensures notice.title
              == (if Contains(old(cart), payload.id, payload.size) then "Cart updated: " else "Product added: ")
                 + payload.name
    {
      var found := FindFirst(cart, payload.id, payload.size);
      if found.Some? {
        var existingProduct := cart[found.value];
        existingProduct := existingProduct.(quantity := existingProduct.quantity + payload.quantity);
        existingProduct := existingProduct.(totalPrice := existingProduct.price * existingProduct.quantity);
        cart := cart[found.value := existingProduct];
        notice := Notice(Success, "Cart updated: " + payload.name);
      } else {
        var newProduct := payload.(totalPrice := payload.totalPrice);
        cart := cart + [newProduct];
        notice := Notice(Success, "Product added: " + payload.name);
      }
      totalPrice := CalculateTotalPrice(cart);
      if Unique(old(cart)) {
        CartProperties.AddProductPreservesUnique(old(cart), payload);
      }
    }

    /** `increaseQuantity`: one more of the first entry with the key, if
        there is one; then recompute the grand total. */
    method IncreaseQuantity(id: int, size: string)
      modifies this
      ensures cart == CartModel.IncreaseQuantity(old(cart), id, size)
      ensures totalPrice == CalculateTotalPrice(cart)
      ensures old(Valid()) ==> Valid()
      ensures Consistent(old(cart)) ==> Consistent(cart)
    {
      var found := FindFirst(cart, id, size);
      if found.Some? {
        var product := cart[found.value];
        product := product.(quantity := product.quantity + 1);
        product := product.(totalPrice := product.price * product.quantity);
        cart := cart[found.value := product];
      }
      totalPrice := CalculateTotalPrice(cart);
      CartProperties.IncreaseQuantityPreserves(old(cart), id, size);
    }

    /** `decreaseQuantity`: one fewer of the first entry with the key when it
        has more than one, otherwise drop every entry with the key; then
        recompute the grand total. */
    method DecreaseQuantity(id: int, size: string)
      modifies this
      ensures cart == CartModel.DecreaseQuantity(old(cart), id, size)
      ensures totalPrice == CalculateTotalPrice(cart)
      ensures old(Valid()) ==> Valid()
      ensures Consistent(old(cart)) ==> Consistent(cart)
    {
      var found := FindFirst(cart, id, size);
      if found.Some? && cart[found.value].quantity > 1 {
        var product := cart[found.value];
        product := product.(quantity := product.quantity - 1);
        product := product.(totalPrice := product.price * product.quantity);
        cart := cart[found.value := product];
      } else if found.Some? {
        cart := CartModel.RemoveProduct(cart, id, size);
      }
      totalPrice := CalculateTotalPrice(cart);
      CartProperties.DecreaseQuantityPreserves(old(cart), id, size);
    }

    /** `removeProduct`: drop every entry with the key; then recompute the
        grand total. */
    method RemoveProduct(id: int, size: string) returns (notice: Notice)
      modifies this
      ensures cart == CartModel.RemoveProduct(old(cart), id, size)
      ensures totalPrice == CalculateTotalPrice(cart)
      ensures old(Valid()) ==> Valid()
      ensures Consistent(old(cart)) ==> Consistent(cart)
      ensures notice == Notice(Info, "Product removed from cart")
      ensures old(Valid()) && Contains(old(cart), id, size) ==>
                && |cart| == |old(cart)| - 1
                && totalPrice == old(totalPrice) - Subtotal(old(cart)[FindFirst(old(cart), id, size).value])
    {
      cart := CartModel.RemoveProduct(cart, id, size);
      notice := Notice(Info, "Product removed from cart");
      totalPrice := CalculateTotalPrice(cart);
      CartProperties.RemoveProductPreserves(old(cart), id, size);
      var found := FindFirst(old(cart), id, size);
      if old(Valid()) && found.Some? {
        CartProperties.RemoveProductAt(old(cart), id, size, found.value);
      }
    }

    /** `clearCart`: empty the list and zero the total, which is also the
        fold over the empty list. */
    method ClearCart() returns (notice: Notice)
      modifies this
      ensures cart == [] && totalPrice == 0
      ensures totalPrice == CalculateTotalPrice(cart)
      ensures Valid()
      ensures notice == Notice(Warning, "Cart cleared")
    {
      cart := [];
      totalPrice := 0;
      notice := Notice(Warning, "Cart cleared");
    }
  }
}
