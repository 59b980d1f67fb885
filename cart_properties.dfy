/**
 * What the reducers of the cart slice guarantee: the effect of each reducer
 * on the entry it finds, on the other entries and on the grand total, and the
 * invariants (one entry per key, line totals that agree with price times
 * quantity) that they keep.
 */
module CartProperties {
  import opened CartModel

  // ---------------------------------------------------------------------
  // The grand total
  // ---------------------------------------------------------------------

  lemma TotalSingleton(x: Item)
    ensures CalculateTotalPrice([x]) == Subtotal(x)
  {
    assert [x][..0] == [];
  }

  /** The fold distributes over concatenation. */
  lemma {:induction false} TotalConcat(a: seq<Item>, b: seq<Item>)
    ensures CalculateTotalPrice(a + b) == CalculateTotalPrice(a) + CalculateTotalPrice(b)
    decreases |b|
  {
    if b == [] {
      assert a + b == a;
    } else {
      var b' := b[..|b| - 1];
      assert (a + b)[..|a + b| - 1] == a + b';
      assert (a + b)[|a + b| - 1] == b[|b| - 1];
      TotalConcat(a, b');
    }
  }

  /** Summing from the front gives the same total as the left fold, which
      sums from the back. */
  lemma {:induction false} TotalFromFront(cart: seq<Item>)
    requires cart != []
    ensures CalculateTotalPrice(cart) == Subtotal(cart[0]) + CalculateTotalPrice(cart[1..])
  {
    assert cart == [cart[0]] + cart[1..];
    TotalConcat([cart[0]], cart[1..]);
    TotalSingleton(cart[0]);
  }

  /** Replacing one entry changes the total by the difference of the two
      subtotals: recomputing the total after an in-place update gives exactly
      the incrementally patched value. */
  lemma {:induction false} TotalUpdate(s: seq<Item>, i: nat, x: Item)
    requires i < |s|
    ensures CalculateTotalPrice(s[i := x])
            == CalculateTotalPrice(s) - Subtotal(s[i]) + Subtotal(x)
  {
    assert s == s[..i] + [s[i]] + s[i + 1..];
    assert s[i := x] == s[..i] + [x] + s[i + 1..];
    TotalConcat(s[..i] + [s[i]], s[i + 1..]);
    TotalConcat(s[..i], [s[i]]);
    TotalConcat(s[..i] + [x], s[i + 1..]);
    TotalConcat(s[..i], [x]);
    TotalSingleton(s[i]);
    TotalSingleton(x);
  }

  lemma Distribute(p: int, q: int, d: int)
    ensures p * (q + d) == p * q + p * d
  {
  }

  /** Deleting one entry lowers the total by that entry's subtotal. */
  lemma {:induction false} TotalDelete(s: seq<Item>, i: nat)
    requires i < |s|
    ensures CalculateTotalPrice(s[..i] + s[i + 1..])
            == CalculateTotalPrice(s) - Subtotal(s[i])
  {
    var pre, post := s[..i], s[i + 1..];
    assert s == (pre + [s[i]]) + post;
    TotalConcat(pre + [s[i]], post);
    TotalConcat(pre, [s[i]]);
    TotalConcat(pre, post);
    TotalSingleton(s[i]);
  }

  /** The grand total reads only prices and quantities: the cached line
      totals (and every other field) play no part in it. */
  lemma {:induction false} TotalIgnoresLineTotals(a: seq<Item>, b: seq<Item>)
    requires |a| == |b|
    requires forall j :: 0 <= j < |a| ==> a[j].price == b[j].price && a[j].quantity == b[j].quantity
    ensures CalculateTotalPrice(a) == CalculateTotalPrice(b)
    decreases |a|
  {
    if a != [] {
      TotalIgnoresLineTotals(a[..|a| - 1], b[..|b| - 1]);
    }
  }

  // ---------------------------------------------------------------------
  // Keys
  // ---------------------------------------------------------------------

  /** The first match of a key is the index FindFirst returns. */
  lemma FindFirstIs(cart: seq<Item>, id: int, size: string, i: int)
    requires IsFirstMatch(cart, id, size, i)
    ensures FindFirst(cart, id, size) == Some(i)
  {
  }

  /** Changing entries without changing their keys keeps keys unique. */
  lemma UniqueSameKeys(a: seq<Item>, b: seq<Item>)
    requires Unique(a)
    requires |a| == |b|
    requires forall j :: 0 <= j < |a| ==> SameKey(b[j], a[j])
    ensures Unique(b)
  {
  }

  // ---------------------------------------------------------------------
  // addProduct
  // ---------------------------------------------------------------------

  /** With an entry for the payload's key, the first such entry gains the
      payload's quantity and gets the line total of its own price and new
      quantity; its name, price, catalog data and key are kept, every other
      entry is unchanged, and the total grows by that entry's price times
      the added quantity. */
  lemma {:induction false} AddProductExisting(cart: seq<Item>, payload: Item, i: int)
    requires IsFirstMatch(cart, payload.id, payload.size, i)
    ensures var r := AddProduct(cart, payload);
      && |r| == |cart|
      && r[i].quantity == cart[i].quantity + payload.quantity
      && r[i].totalPrice == r[i].price * r[i].quantity
      && r[i] == cart[i].(quantity := r[i].quantity, totalPrice := r[i].totalPrice)
      && (forall j :: 0 <= j < |cart| && j != i ==> r[j] == cart[j])
      && CalculateTotalPrice(r) == CalculateTotalPrice(cart) + cart[i].price * payload.quantity
  {
    FindFirstIs(cart, payload.id, payload.size, i);
    var r := AddProduct(cart, payload);
    TotalUpdate(cart, i, r[i]);
    Distribute(cart[i].price, cart[i].quantity, payload.quantity);
  }

  /** With no entry for the payload's key, the payload is appended at the
      end exactly as given, its own line total included, and the total grows
      by the payload's price times its quantity. */
  lemma {:induction false} AddProductNew(cart: seq<Item>, payload: Item)
    requires !Contains(cart, payload.id, payload.size)
    ensures var r := AddProduct(cart, payload);
      && r == cart + [payload]
      && r[|cart|].totalPrice == payload.totalPrice
      && CalculateTotalPrice(r) == CalculateTotalPrice(cart) + Subtotal(payload)
  {
    TotalConcat(cart, [payload]);
    TotalSingleton(payload);
  }

  /** addProduct keeps at most one entry per key. */
  lemma {:induction false} AddProductPreservesUnique(cart: seq<Item>, payload: Item)
    requires Unique(cart)
    ensures Unique(AddProduct(cart, payload))
  {
    var r := AddProduct(cart, payload);
    match FindFirst(cart, payload.id, payload.size)
    case Some(i) =>
      UniqueSameKeys(cart, r);
    case None =>
      assert r == cart + [payload];
  }

  /** Line totals stay consistent after addProduct exactly when the entry
      it appends (if any) carries a consistent line total: the new-item
      branch copies the payload's `totalPrice` instead of computing it. */
  lemma {:induction false} AddProductConsistent(cart: seq<Item>, payload: Item)
    requires Consistent(cart)
    ensures Consistent(AddProduct(cart, payload))
            <==> Contains(cart, payload.id, payload.size) || payload.totalPrice == Subtotal(payload)
  {
    var r := AddProduct(cart, payload);
    if !Contains(cart, payload.id, payload.size) {
      AddProductNew(cart, payload);
      assert r[|cart|] == payload;
    }
  }

  // ---------------------------------------------------------------------
  // increaseQuantity
  // ---------------------------------------------------------------------

  /** increaseQuantity changes the cart exactly when some entry has the key. */
  lemma {:induction false} IncreaseQuantityUnchanged(cart: seq<Item>, id: int, size: string)
    ensures IncreaseQuantity(cart, id, size) == cart <==> !Contains(cart, id, size)
  {
    match FindFirst(cart, id, size)
    case Some(i) =>
      assert IncreaseQuantity(cart, id, size)[i].quantity != cart[i].quantity;
    case None =>
  }

  /** Only the first entry with the key changes: its quantity grows by one
      and its line total is recomputed; the total grows by its price. */
  lemma {:induction false} IncreaseQuantityFirst(cart: seq<Item>, id: int, size: string, i: int)
    requires IsFirstMatch(cart, id, size, i)
    ensures var r := IncreaseQuantity(cart, id, size);
      && |r| == |cart|
      && r[i].quantity == cart[i].quantity + 1
      && r[i].totalPrice == r[i].price * r[i].quantity
      && r[i] == cart[i].(quantity := r[i].quantity, totalPrice := r[i].totalPrice)
      && (forall j :: 0 <= j < |cart| && j != i ==> r[j] == cart[j])
      && CalculateTotalPrice(r) == CalculateTotalPrice(cart) + cart[i].price
  {
    FindFirstIs(cart, id, size, i);
    var r := IncreaseQuantity(cart, id, size);
    TotalUpdate(cart, i, r[i]);
    Distribute(cart[i].price, cart[i].quantity, 1);
  }

  /** increaseQuantity keeps keys unique and line totals consistent. */
  lemma {:induction false} IncreaseQuantityPreserves(cart: seq<Item>, id: int, size: string)
    ensures Unique(cart) ==> Unique(IncreaseQuantity(cart, id, size))
    ensures Consistent(cart) ==> Consistent(IncreaseQuantity(cart, id, size))
  {
    if Unique(cart) {
      UniqueSameKeys(cart, IncreaseQuantity(cart, id, size));
    }
  }

  // ---------------------------------------------------------------------
  // removeProduct
  // ---------------------------------------------------------------------

  /** The filter distributes over concatenation, so it keeps the entries it
      does not drop in their original order. */
  lemma {:induction false} RemoveProductConcat(a: seq<Item>, b: seq<Item>, id: int, size: string)
    ensures RemoveProduct(a + b, id, size) == RemoveProduct(a, id, size) + RemoveProduct(b, id, size)
    decreases |a|
  {
    if a == [] {
      assert a + b == b;
    } else {
      var head := if Matches(a[0], id, size) then [] else [a[0]];
      assert (a + b)[0] == a[0];
      assert (a + b)[1..] == a[1..] + b;
      calc {
        RemoveProduct(a + b, id, size);
        head + RemoveProduct(a[1..] + b, id, size);
        { RemoveProductConcat(a[1..], b, id, size); }
        head + (RemoveProduct(a[1..], id, size) + RemoveProduct(b, id, size));
        (head + RemoveProduct(a[1..], id, size)) + RemoveProduct(b, id, size);
        RemoveProduct(a, id, size) + RemoveProduct(b, id, size);
      }
    }
  }

  /** Every entry with another key survives, as many times as it occurred. */
  lemma {:induction false} RemoveProductKeepsOthers(cart: seq<Item>, id: int, size: string, x: Item)
    requires !Matches(x, id, size)
    ensures multiset(RemoveProduct(cart, id, size))[x] == multiset(cart)[x]
    decreases |cart|
  {
    if cart != [] {
      assert cart == [cart[0]] + cart[1..];
      RemoveProductKeepsOthers(cart[1..], id, size, x);
    }
  }

  /** Removing a key leaves the cart unchanged exactly when the key is absent. */
  lemma {:induction false} RemoveProductAbsent(cart: seq<Item>, id: int, size: string)
    ensures RemoveProduct(cart, id, size) == cart <==> !Contains(cart, id, size)
    decreases |cart|
  {
    if cart != [] && !Contains(cart, id, size) {
      assert !Contains(cart[1..], id, size) by {
        forall j | 0 <= j < |cart| - 1
          ensures !Matches(cart[1..][j], id, size)
        {
          assert cart[1..][j] == cart[j + 1];
        }
      }
      RemoveProductAbsent(cart[1..], id, size);
      assert cart == [cart[0]] + cart[1..];
    }
  }

  /** Removing the same key twice gives the same cart as removing it once. */
  lemma {:induction false} RemoveProductIdempotent(cart: seq<Item>, id: int, size: string)
    ensures var r := RemoveProduct(cart, id, size);
      RemoveProduct(r, id, size) == r
  {
    RemoveProductAbsent(RemoveProduct(cart, id, size), id, size);
  }

  /** In a cart with unique keys, removing a present key deletes exactly its
      one entry, and the total drops by that entry's subtotal. */
  lemma {:induction false} RemoveProductAt(cart: seq<Item>, id: int, size: string, i: nat)
    requires Unique(cart)
    requires i < |cart| && Matches(cart[i], id, size)
    ensures RemoveProduct(cart, id, size) == cart[..i] + cart[i + 1..]
    ensures CalculateTotalPrice(RemoveProduct(cart, id, size))
            == CalculateTotalPrice(cart) - Subtotal(cart[i])
  {
    var pre, x, post := cart[..i], cart[i], cart[i + 1..];
    assert cart == (pre + [x]) + post;
    OnlyMatchAt(cart, id, size, i);
    calc {
      RemoveProduct(cart, id, size);
      RemoveProduct((pre + [x]) + post, id, size);
      { RemoveProductConcat(pre + [x], post, id, size); }
      RemoveProduct(pre + [x], id, size) + RemoveProduct(post, id, size);
      { RemoveProductConcat(pre, [x], id, size); }
      RemoveProduct(pre, id, size) + RemoveProduct([x], id, size) + RemoveProduct(post, id, size);
      { RemoveProductAbsent(pre, id, size); RemoveProductAbsent(post, id, size); }
      pre + RemoveProduct([x], id, size) + post;
      pre + post;
    }
    TotalDelete(cart, i);
  }

  /** With unique keys, a matching entry is the only one with its key. */
  lemma {:induction false} OnlyMatchAt(cart: seq<Item>, id: int, size: string, i: nat)
    requires Unique(cart)
    requires i < |cart| && Matches(cart[i], id, size)
    ensures !Contains(cart[..i], id, size) && !Contains(cart[i + 1..], id, size)
  {
    var pre, post := cart[..i], cart[i + 1..];
    forall j | 0 <= j < |pre|
      ensures !Matches(pre[j], id, size)
    {
      assert pre[j] == cart[j] && !SameKey(cart[j], cart[i]);
    }
    forall j | 0 <= j < |post|
      ensures !Matches(post[j], id, size)
    {
      assert post[j] == cart[i + 1 + j] && !SameKey(cart[i], cart[i + 1 + j]);
    }
  }

  /** removeProduct keeps keys unique and line totals consistent. */
  lemma {:induction false} RemoveProductPreserves(cart: seq<Item>, id: int, size: string)
    ensures Unique(cart) ==> Unique(RemoveProduct(cart, id, size))
    ensures Consistent(cart) ==> Consistent(RemoveProduct(cart, id, size))
    decreases |cart|
  {
    var r := RemoveProduct(cart, id, size);
    if cart != [] {
      var t := cart[1..];
      RemoveProductPreserves(t, id, size);
      var rt := RemoveProduct(t, id, size);
      if Unique(cart) && !Matches(cart[0], id, size) {
        assert Unique(t) by {
          forall a, b | 0 <= a < b < |t|
            ensures !SameKey(t[a], t[b])
          {
            assert t[a] == cart[a + 1] && t[b] == cart[b + 1];
          }
        }
        assert r == [cart[0]] + rt;
        forall a, b | 0 <= a < b < |r|
          ensures !SameKey(r[a], r[b])
        {
          if a == 0 {
            assert r[b] == rt[b - 1] && rt[b - 1] in t;
            var k :| 0 <= k < |t| && t[k] == r[b];
            assert t[k] == cart[k + 1];
          } else {
            assert r[a] == rt[a - 1] && r[b] == rt[b - 1];
          }
        }
      }
    }
    if Consistent(cart) {
      forall j | 0 <= j < |r|
        ensures r[j].totalPrice == Subtotal(r[j])
      {
        var k :| 0 <= k < |cart| && cart[k] == r[j];
      }
    }
  }

  // ---------------------------------------------------------------------
  // decreaseQuantity
  // ---------------------------------------------------------------------

  /** decreaseQuantity changes the cart exactly when some entry has the key. */
  lemma {:induction false} DecreaseQuantityUnchanged(cart: seq<Item>, id: int, size: string)
    ensures DecreaseQuantity(cart, id, size) == cart <==> !Contains(cart, id, size)
  {
    match FindFirst(cart, id, size)
    case Some(i) =>
      if cart[i].quantity > 1 {
        assert DecreaseQuantity(cart, id, size)[i].quantity != cart[i].quantity;
      }
    case None =>
  }

  /** A first match with quantity above 1 loses one unit and has its line
      total recomputed; nothing else changes and the total drops by its
      price. */
  lemma {:induction false} DecreaseQuantityDecrements(cart: seq<Item>, id: int, size: string, i: int)
    requires IsFirstMatch(cart, id, size, i) && cart[i].quantity > 1
    ensures var r := DecreaseQuantity(cart, id, size);
      && |r| == |cart|
      && r[i].quantity == cart[i].quantity - 1
      && r[i].totalPrice == r[i].price * r[i].quantity
      && r[i] == cart[i].(quantity := r[i].quantity, totalPrice := r[i].totalPrice)
      && (forall j :: 0 <= j < |cart| && j != i ==> r[j] == cart[j])
      && CalculateTotalPrice(r) == CalculateTotalPrice(cart) - cart[i].price
  {
    FindFirstIs(cart, id, size, i);
    var r := DecreaseQuantity(cart, id, size);
    TotalUpdate(cart, i, r[i]);
    Distribute(cart[i].price, cart[i].quantity, -1);
  }

  /** A first match with quantity 1 or less makes decreaseQuantity drop
      every entry with the key, keeping the rest in order; with unique keys
      that is the one entry at the match, and the total drops by its
      subtotal. */
  lemma {:induction false} DecreaseQuantityRemoves(cart: seq<Item>, id: int, size: string, i: int)
    requires IsFirstMatch(cart, id, size, i) && cart[i].quantity <= 1
    ensures var r := DecreaseQuantity(cart, id, size);
      && r == RemoveProduct(cart, id, size)
      && !Contains(r, id, size)
      && (Unique(cart) ==>
            && r == cart[..i] + cart[i + 1..]
            && CalculateTotalPrice(r) == CalculateTotalPrice(cart) - Subtotal(cart[i]))
  {
    FindFirstIs(cart, id, size, i);
    if Unique(cart) {
      RemoveProductAt(cart, id, size, i);
    }
  }

  /** decreaseQuantity keeps keys unique and line totals consistent. */
  lemma {:induction false} DecreaseQuantityPreserves(cart: seq<Item>, id: int, size: string)
    ensures Unique(cart) ==> Unique(DecreaseQuantity(cart, id, size))
    ensures Consistent(cart) ==> Consistent(DecreaseQuantity(cart, id, size))
  {
    var r := DecreaseQuantity(cart, id, size);
    match FindFirst(cart, id, size)
    case Some(i) =>
      if cart[i].quantity > 1 {
        if Unique(cart) {
          UniqueSameKeys(cart, r);
        }
      } else {
        RemoveProductPreserves(cart, id, size);
      }
    case None =>
  }

  // ---------------------------------------------------------------------
  // A worked trace
  // ---------------------------------------------------------------------

  /** Adding two of a product at 10 to an empty cart, then one more, then
      decreasing three times: quantities 2, 3, 2, 1 and then no entry, with
      grand totals 20, 30, 20, 10 and 0. */
  lemma {:induction false} WorkedTrace(meta: Catalog)
    ensures var p := Item(1, "Bracket", 10, 2, "M", 20, meta);
      var c1 := AddProduct([], p);
      var c2 := AddProduct(c1, p.(quantity := 1, totalPrice := 10));
      var c3 := DecreaseQuantity(c2, 1, "M");
      var c4 := DecreaseQuantity(c3, 1, "M");
      var c5 := DecreaseQuantity(c4, 1, "M");
      && c1 == [p] && CalculateTotalPrice(c1) == 20
      && c2 == [p.(quantity := 3, totalPrice := 30)] && CalculateTotalPrice(c2) == 30
      && c3 == [p] && CalculateTotalPrice(c3) == 20
      && c4 == [p.(quantity := 1, totalPrice := 10)] && CalculateTotalPrice(c4) == 10
      && c5 == [] && CalculateTotalPrice(c5) == 0
  {
    var p := Item(1, "Bracket", 10, 2, "M", 20, meta);
    AddProductNew([], p);
    var c1 := [p];
    AddProductExisting(c1, p.(quantity := 1, totalPrice := 10), 0);
    var c2 := [p.(quantity := 3, totalPrice := 30)];
    DecreaseQuantityDecrements(c2, 1, "M", 0);
    DecreaseQuantityDecrements([p], 1, "M", 0);
    var c4 := [p.(quantity := 1, totalPrice := 10)];
    DecreaseQuantityRemoves(c4, 1, "M", 0);
  }
}
