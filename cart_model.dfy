/**
 * The values of the shopping-cart slice: line items, notifications, and the
 * pure specification of each reducer as a function from the current list of
 * items (and the action payload) to the next one.
 *
 * Prices and quantities are unbounded integers, so every sum and product is
 * exact (the store itself uses floating-point numbers).
 */
module CartModel {

  datatype Option<T> = None | Some(value: T)

  /** The descriptive catalog data of a product (brand, country, stock flags,
      images, reviews, ...), kept as a map from field names to rendered
      values. The reducers never look inside it; it is copied along with the
      item it belongs to. */
  datatype Catalog = Catalog(attributes: map<string, string>)

  /** One line of the cart, identified by the pair (id, size). */
  datatype Item = Item(
    id: int,
    name: string,
    price: int,
    quantity: int,
    size: string,
    totalPrice: int,
    meta: Catalog)

  /** The toast variants the reducers raise. */
  datatype Variant = Success | Info | Warning

  /** A notification the reducer asks the user interface to show. */
  datatype Notice = Notice(variant: Variant, title: string)

  /** The predicate the reducers hand to `find` and (negated) to `filter`. */
  predicate Matches(item: Item, id: int, size: string)
  {
    item.id == id && item.size == size
  }

  predicate SameKey(a: Item, b: Item)
  {
    Matches(a, b.id, b.size)
  }

  /** Some entry of the cart has the key (id, size). */
  predicate Contains(cart: seq<Item>, id: int, size: string)
  {
    exists j :: 0 <= j < |cart| && Matches(cart[j], id, size)
  }

  /** Index i holds the first entry with the key (id, size). */
  predicate IsFirstMatch(cart: seq<Item>, id: int, size: string, i: int)
  {
    && 0 <= i < |cart|
    && Matches(cart[i], id, size)
    && forall j :: 0 <= j < i ==> !Matches(cart[j], id, size)
  }

  /** No two entries of the cart share a key. */
  predicate Unique(cart: seq<Item>)
  {
    forall i, j :: 0 <= i < j < |cart| ==> !SameKey(cart[i], cart[j])
  }

  /** The contribution of one line to the grand total. */
  function Subtotal(item: Item): int
  {
    item.price * item.quantity
  }

  /** Every entry's cached `totalPrice` equals its price times its quantity. */
  predicate Consistent(cart: seq<Item>)
  {
    forall j :: 0 <= j < |cart| ==> cart[j].totalPrice == Subtotal(cart[j])
  }

  /** The item with a new quantity and its line total recomputed from it. */
  function WithQuantity(item: Item, quantity: int): Item
  {
    item.(quantity := quantity, totalPrice := item.price * quantity)
  }

  /** `cart.find(...)`: the index of the first entry with the key, if any. */
  function FindFirst(cart: seq<Item>, id: int, size: string): (r: Option<nat>)
    ensures r.None? ==> forall j :: 0 <= j < |cart| ==> !Matches(cart[j], id, size)
    ensures r.Some? ==> IsFirstMatch(cart, id, size, r.value)
  {
    if cart == [] then None
    else if Matches(cart[0], id, size) then Some(0)
    else match FindFirst(cart[1..], id, size)
      case None => None
      case Some(k) => Some(k + 1)
  }

  /** `calculateTotalPrice`: the left fold `total + price * quantity`,
      starting from 0, over the cart in order. */
  function CalculateTotalPrice(cart: seq<Item>): (r: int)
    ensures (forall j :: 0 <= j < |cart| ==> cart[j].price >= 0 && cart[j].quantity >= 0) ==> r >= 0
  {
    if cart == [] then 0
    else
      var last := cart[|cart| - 1];
      assert last.price >= 0 && last.quantity >= 0 ==> Subtotal(last) >= 0;
      CalculateTotalPrice(cart[..|cart| - 1]) + Subtotal(last)
  }

  /** `cart.filter(item => !(item.id === id && item.size === size))`. */
  function RemoveProduct(cart: seq<Item>, id: int, size: string): (r: seq<Item>)
    ensures |r| <= |cart|
    ensures |r| < |cart| <==> Contains(cart, id, size)
    ensures forall j :: 0 <= j < |r| ==> !Matches(r[j], id, size)
    ensures forall j :: 0 <= j < |r| ==> r[j] in cart
  {
    if cart == [] then []
    else (if Matches(cart[0], id, size) then [] else [cart[0]])
         + RemoveProduct(cart[1..], id, size)
  }

  /** The list produced by `addProduct`: the first entry with the payload's
      key gains the payload's quantity and has its line total recomputed from
      its own price; with no such entry, the payload is appended as it is,
      its own `totalPrice` included. */
  function AddProduct(cart: seq<Item>, payload: Item): (r: seq<Item>)
    ensures Contains(r, payload.id, payload.size)
    ensures |r| == if Contains(cart, payload.id, payload.size) then |cart| else |cart| + 1
  {
    match FindFirst(cart, payload.id, payload.size)
    case Some(i) =>
      var r := cart[i := WithQuantity(cart[i], cart[i].quantity + payload.quantity)];
      assert Matches(r[i], payload.id, payload.size);
      r
    case None =>
      var r := cart + [payload.(totalPrice := payload.totalPrice)];
      assert Matches(r[|cart|], payload.id, payload.size);
      r
  }

  /** The list produced by `increaseQuantity`. */
  function IncreaseQuantity(cart: seq<Item>, id: int, size: string): (r: seq<Item>)
    ensures |r| == |cart|
    ensures forall j :: 0 <= j < |r| ==> SameKey(r[j], cart[j])
  {
    match FindFirst(cart, id, size)
    case Some(i) => cart[i := WithQuantity(cart[i], cart[i].quantity + 1)]
    case None => cart
  }

  /** The list produced by `decreaseQuantity`: a first match with quantity
      above 1 loses one; any other first match makes the reducer filter out
      every entry with the key. */
  function DecreaseQuantity(cart: seq<Item>, id: int, size: string): (r: seq<Item>)
    ensures |r| <= |cart|
    ensures |r| == |cart| ==> forall j :: 0 <= j < |r| ==> SameKey(r[j], cart[j])
    ensures |r| < |cart| ==> !Contains(r, id, size)
  {
    match FindFirst(cart, id, size)
    case Some(i) =>
      if cart[i].quantity > 1 then cart[i := WithQuantity(cart[i], cart[i].quantity - 1)]
      else RemoveProduct(cart, id, size)
    case None => cart
  }
}
