/**
 * The shopping cart: an ordered list of lines, at most one per product, each
 * with a positive quantity. The functions below compute the cart that each
 * handler of the page hands to `setCart`; the lemmas state what the handlers
 * promise about that new cart.
 */
module Cart {
  import opened Sequences
  import opened Catalog

  /** A cart line: the product record as it was added, and how many of it. */
  datatype CartItem = CartItem(product: Product, quantity: int)

  /** The amount one line contributes to the total. */
  function LineTotal(item: CartItem): int
  {
    item.product.price * item.quantity
  }

  /** Some line of the cart is for product `id`. */
  predicate HasLine(cart: seq<CartItem>, id: int)
  {
    exists i :: 0 <= i < |cart| && cart[i].product.id == id
  }

  /** No two lines are for the same product. */
  predicate DistinctIds(cart: seq<CartItem>)
  {
    forall i, j :: 0 <= i < j < |cart| ==> cart[i].product.id != cart[j].product.id
  }

  /** The cart invariant: one line per product, and every quantity is at least 1. */
  predicate WellFormed(cart: seq<CartItem>)
  {
    DistinctIds(cart) && forall i :: 0 <= i < |cart| ==> cart[i].quantity >= 1
  }

  /** The test `item => item.id === id`. */
  function HasId(id: int): CartItem -> bool
  {
    (item: CartItem) => item.product.id == id
  }

  /** The test `item => item.id !== id`. */
  function OtherId(id: int): CartItem -> bool
  {
    (item: CartItem) => item.product.id != id
  }

  /** The line update `item.id === id ? { ...item, quantity: item.quantity + 1 } : item`. */
  function Increment(id: int): CartItem -> CartItem
  {
    (item: CartItem) => if item.product.id == id then item.(quantity := item.quantity + 1) else item
  }

  /** The line update `item.id === id ? { ...item, quantity } : item`. */
  function SetQuantity(id: int, quantity: int): CartItem -> CartItem
  {
    (item: CartItem) => if item.product.id == id then item.(quantity := quantity) else item
  }

  /**
   * The cart after `addToCart(product)`: the product's line gains one unit if
   * it is present, otherwise a line of one unit is appended. Either way the
   * product is in the cart afterwards.
   */
  function AddToCart(cart: seq<CartItem>, product: Product): (r: seq<CartItem>)
    ensures HasLine(r, product.id)
    ensures |r| == if HasLine(cart, product.id) then |cart| else |cart| + 1
  {
    if Find(cart, HasId(product.id)).Some? then
      var r := Map(cart, Increment(product.id));
      assert forall i :: 0 <= i < |cart| ==> r[i].product == cart[i].product;
      r
    else
      var r := cart + [CartItem(product, 1)];
      assert r[|cart|].product.id == product.id;
      r
  }

  /** The cart after `removeFromCart(id)`: exactly the lines for other products remain. */
  function RemoveFromCart(cart: seq<CartItem>, id: int): (r: seq<CartItem>)
    ensures !HasLine(r, id)
    ensures forall item :: item in r <==> item in cart && item.product.id != id
  {
    var r := Filter(cart, OtherId(id));
    assert forall i :: 0 <= i < |r| ==> r[i].product.id != id by {
      forall i | 0 <= i < |r| ensures r[i].product.id != id {
        assert r[i] in r;
      }
    }
    r
  }

  /**
   * The cart after `updateQuantity(id, quantity)`: a quantity of zero or less
   * removes the line; a positive one replaces that line's quantity and keeps
   * every line's product and position.
   */
  function UpdateQuantity(cart: seq<CartItem>, id: int, quantity: int): (r: seq<CartItem>)
    ensures quantity <= 0 ==> !HasLine(r, id)
    ensures quantity > 0 ==> |r| == |cart| && forall i :: 0 <= i < |r| ==> r[i].product == cart[i].product
  {
    if quantity <= 0 then RemoveFromCart(cart, id)
    else Map(cart, SetQuantity(id, quantity))
  }

  /** The reducer `(sum, item) => sum + item.price * item.quantity`. */
  function AddLine(sum: int, item: CartItem): int
  {
    sum + LineTotal(item)
  }

  /**
   * `totalPrice`: the cart reduced with `AddLine` from 0, which is the sum of
   * price times quantity over all lines, and 0 for an empty cart.
   */
  function TotalPrice(cart: seq<CartItem>): (r: int)
    ensures r == LinesSum(cart)
    ensures cart == [] ==> r == 0
  {
    ReduceAddsLines(cart, 0);
    Reduce(cart, AddLine, 0)
  }

  /** The sum of the line totals, written independently of the fold. */
  function LinesSum(cart: seq<CartItem>): int
  {
    if cart == [] then 0 else LineTotal(cart[0]) + LinesSum(cart[1..])
  }

  /** The set of products that have a line in the cart. */
  function Ids(cart: seq<CartItem>): (r: set<int>)
    ensures forall id :: id in r <==> HasLine(cart, id)
  {
    if cart == [] then {}
    else
      var rest := Ids(cart[1..]);
      assert forall id :: HasLine(cart[1..], id) ==> HasLine(cart, id) by {
        forall id | HasLine(cart[1..], id) ensures HasLine(cart, id) {
          var i :| 0 <= i < |cart[1..]| && cart[1..][i].product.id == id;
          assert cart[i + 1].product.id == id;
        }
      }
      assert forall id :: HasLine(cart, id) ==> id == cart[0].product.id || HasLine(cart[1..], id) by {
        forall id | HasLine(cart, id) ensures id == cart[0].product.id || HasLine(cart[1..], id) {
          var i :| 0 <= i < |cart| && cart[i].product.id == id;
          if i > 0 { assert cart[1..][i - 1].product.id == id; }
        }
      }
      {cart[0].product.id} + rest
  }

  /** `n` successive calls of `addToCart(product)`. */
  function AddTimes(cart: seq<CartItem>, product: Product, n: nat): seq<CartItem>
  {
    if n == 0 then cart else AddToCart(AddTimes(cart, product, n - 1), product)
  }

  // ---------------------------------------------------------------------------
  // addToCart

  /** Adding a product that already has a line raises that line by exactly one; nothing else changes. */
  lemma AddToCartExisting(cart: seq<CartItem>, product: Product, k: int)
    requires DistinctIds(cart)
    requires 0 <= k < |cart| && cart[k].product.id == product.id
    ensures AddToCart(cart, product) == cart[k := cart[k].(quantity := cart[k].quantity + 1)]
  {
    var r := AddToCart(cart, product);
    assert Find(cart, HasId(product.id)).Some? by {
      assert HasId(product.id)(cart[k]);
    }
    assert r == Map(cart, Increment(product.id));
    forall i | 0 <= i < |cart| && i != k
      ensures r[i] == cart[i]
    {
      assert cart[i].product.id != product.id;
    }
  }

  /** Adding a product without a line appends a one-unit line at the end. */
  lemma AddToCartNew(cart: seq<CartItem>, product: Product)
    requires !HasLine(cart, product.id)
    ensures AddToCart(cart, product) == cart + [CartItem(product, 1)]
  {
  }

  /** `addToCart` keeps the cart invariant. */
  lemma AddToCartPreservesWellFormed(cart: seq<CartItem>, product: Product)
    requires WellFormed(cart)
    ensures WellFormed(AddToCart(cart, product))
  {
    if HasLine(cart, product.id) {
      var k :| 0 <= k < |cart| && cart[k].product.id == product.id;
      AddToCartExisting(cart, product, k);
    } else {
      AddToCartNew(cart, product);
    }
  }

  // ---------------------------------------------------------------------------
  // removeFromCart

  /** Removing a product that has a line deletes exactly that line; the rest keep their order. */
  lemma RemoveFromCartDeletesLine(cart: seq<CartItem>, id: int, k: int)
    requires DistinctIds(cart)
    requires 0 <= k < |cart| && cart[k].product.id == id
    ensures RemoveFromCart(cart, id) == cart[..k] + cart[k + 1..]
  {
    FilterDropsOne(cart, OtherId(id), k);
  }

  /** Removing a product that has no line changes nothing. */
  lemma RemoveFromCartAbsent(cart: seq<CartItem>, id: int)
    requires !HasLine(cart, id)
    ensures RemoveFromCart(cart, id) == cart
  {
    FilterKeepsAll(cart, OtherId(id));
  }

  /** The remaining lines keep their original relative order. */
  lemma RemoveFromCartKeepsOrder(cart: seq<CartItem>, id: int)
    ensures IsSubsequence(RemoveFromCart(cart, id), cart)
  {
    FilterIsSubsequence(cart, OtherId(id));
  }

  /** `removeFromCart` keeps the cart invariant. */
  lemma {:induction false} RemoveFromCartPreservesWellFormed(cart: seq<CartItem>, id: int)
    requires WellFormed(cart)
    ensures WellFormed(RemoveFromCart(cart, id))
  {
    if cart != [] {
      RemoveFromCartPreservesWellFormed(cart[1..], id);
      var rest := RemoveFromCart(cart[1..], id);
      if cart[0].product.id != id {
        assert RemoveFromCart(cart, id) == [cart[0]] + rest;
        forall j | 0 <= j < |rest|
          ensures rest[j].product.id != cart[0].product.id
        {
          var m :| 0 <= m < |cart[1..]| && cart[1..][m] == rest[j];
          assert cart[m + 1] == rest[j];
        }
      } else {
        assert RemoveFromCart(cart, id) == rest;
      }
    }
  }

  // ---------------------------------------------------------------------------
  // updateQuantity

  /** A quantity of zero or less gives exactly the cart `removeFromCart` gives. */
  lemma UpdateQuantityNonPositiveRemoves(cart: seq<CartItem>, id: int, quantity: int)
    requires quantity <= 0
    ensures UpdateQuantity(cart, id, quantity) == RemoveFromCart(cart, id)
  {
  }

  /** A positive quantity replaces that line's quantity; nothing else changes. */
  lemma UpdateQuantityPositive(cart: seq<CartItem>, id: int, quantity: int, k: int)
    requires DistinctIds(cart)
    requires 0 <= k < |cart| && cart[k].product.id == id
    requires quantity > 0
    ensures UpdateQuantity(cart, id, quantity) == cart[k := cart[k].(quantity := quantity)]
  {
    var r := UpdateQuantity(cart, id, quantity);
    forall i | 0 <= i < |cart| && i != k
      ensures r[i] == cart[i]
    {
      assert cart[i].product.id != id;
    }
  }

  /** Updating a product that has no line changes nothing, whatever the quantity. */
  lemma UpdateQuantityAbsent(cart: seq<CartItem>, id: int, quantity: int)
    requires !HasLine(cart, id)
    ensures UpdateQuantity(cart, id, quantity) == cart
  {
    if quantity <= 0 {
      RemoveFromCartAbsent(cart, id);
    } else {
      var r := UpdateQuantity(cart, id, quantity);
      forall i | 0 <= i < |cart|
        ensures r[i] == cart[i]
      {
        assert cart[i].product.id != id;
      }
    }
  }

  /** `updateQuantity` keeps the cart invariant. */
  lemma UpdateQuantityPreservesWellFormed(cart: seq<CartItem>, id: int, quantity: int)
    requires WellFormed(cart)
    ensures WellFormed(UpdateQuantity(cart, id, quantity))
  {
    if quantity <= 0 {
      RemoveFromCartPreservesWellFormed(cart, id);
    } else if HasLine(cart, id) {
      var k :| 0 <= k < |cart| && cart[k].product.id == id;
      UpdateQuantityPositive(cart, id, quantity, k);
    } else {
      UpdateQuantityAbsent(cart, id, quantity);
    }
  }

  /**
   * The minus button of a line, `updateQuantity(item.id, item.quantity - 1)`:
   * a line of one unit disappears, a larger line loses one unit.
   */
  lemma MinusButton(cart: seq<CartItem>, k: int)
    requires WellFormed(cart)
    requires 0 <= k < |cart|
    ensures UpdateQuantity(cart, cart[k].product.id, cart[k].quantity - 1) ==
              if cart[k].quantity == 1 then cart[..k] + cart[k + 1..]
              else cart[k := cart[k].(quantity := cart[k].quantity - 1)]
  {
    var id := cart[k].product.id;
    if cart[k].quantity == 1 {
      RemoveFromCartDeletesLine(cart, id, k);
    } else {
      UpdateQuantityPositive(cart, id, cart[k].quantity - 1, k);
    }
  }

  /** The plus button of a line, `updateQuantity(item.id, item.quantity + 1)`, adds one unit to it. */
  lemma PlusButton(cart: seq<CartItem>, k: int)
    requires WellFormed(cart)
    requires 0 <= k < |cart|
    ensures UpdateQuantity(cart, cart[k].product.id, cart[k].quantity + 1) ==
              cart[k := cart[k].(quantity := cart[k].quantity + 1)]
  {
    UpdateQuantityPositive(cart, cart[k].product.id, cart[k].quantity + 1, k);
  }

  // ---------------------------------------------------------------------------
  // totalPrice and the line count

  /** The fold from any starting sum adds the line totals to it. */
  lemma {:induction false} ReduceAddsLines(cart: seq<CartItem>, start: int)
    ensures Reduce(cart, AddLine, start) == start + LinesSum(cart)
  {
    if cart != [] {
      ReduceAddsLines(cart[1..], AddLine(start, cart[0]));
    }
  }

  /** With non-negative prices, a well-formed cart never totals below zero. */
  lemma {:induction false} TotalPriceNonNegative(cart: seq<CartItem>)
    requires WellFormed(cart)
    requires forall i :: 0 <= i < |cart| ==> cart[i].product.price >= 0
    ensures TotalPrice(cart) >= 0
  {
    LinesSumNonNegative(cart);
  }

  lemma {:induction false} LinesSumNonNegative(cart: seq<CartItem>)
    requires forall i :: 0 <= i < |cart| ==> cart[i].quantity >= 1 && cart[i].product.price >= 0
    ensures LinesSum(cart) >= 0
  {
    if cart != [] {
      LinesSumNonNegative(cart[1..]);
    }
  }

  /** Appending a line adds its line total. */
  lemma {:induction false} LinesSumAppend(cart: seq<CartItem>, item: CartItem)
    ensures LinesSum(cart + [item]) == LinesSum(cart) + LineTotal(item)
  {
    if cart != [] {
      assert (cart + [item])[1..] == cart[1..] + [item];
      LinesSumAppend(cart[1..], item);
    }
  }

  /** Replacing one line changes the sum by the difference of the two line totals. */
  lemma {:induction false} LinesSumUpdate(cart: seq<CartItem>, k: int, item: CartItem)
    requires 0 <= k < |cart|
    ensures LinesSum(cart[k := item]) == LinesSum(cart) - LineTotal(cart[k]) + LineTotal(item)
  {
    if k == 0 {
      assert cart[k := item][1..] == cart[1..];
    } else {
      assert cart[k := item][1..] == cart[1..][k - 1 := item];
      LinesSumUpdate(cart[1..], k - 1, item);
    }
  }

  /** One more unit on line `k` adds that line's price to the sum. */
  lemma LinesSumIncrement(cart: seq<CartItem>, k: int)
    requires 0 <= k < |cart|
    ensures LinesSum(cart[k := cart[k].(quantity := cart[k].quantity + 1)]) == LinesSum(cart) + cart[k].product.price
  {
    var line := cart[k].(quantity := cart[k].quantity + 1);
    LinesSumUpdate(cart, k, line);
    var price, q := cart[k].product.price, cart[k].quantity;
    assert price * (q + 1) == price * q + price;
    assert LineTotal(line) == LineTotal(cart[k]) + price;
  }

  /**
   * In a cart with one line per product, each `addToCart(product)` raises the
   * total by the product's price, provided the line for that product, if
   * any, carries the same price.
   */
  lemma TotalAfterAdd(cart: seq<CartItem>, product: Product)
    requires DistinctIds(cart)
    requires forall i :: 0 <= i < |cart| && cart[i].product.id == product.id ==> cart[i].product.price == product.price
    ensures TotalPrice(AddToCart(cart, product)) == TotalPrice(cart) + product.price
  {
    if HasLine(cart, product.id) {
      var k :| 0 <= k < |cart| && cart[k].product.id == product.id;
      AddToCartExisting(cart, product, k);
      LinesSumIncrement(cart, k);
    } else {
      AddToCartNew(cart, product);
      LinesSumAppend(cart, CartItem(product, 1));
    }
  }

  /** Starting from an empty cart, `n` additions of one product give one line of `n` units, priced `price * n`. */
  lemma {:induction false} AddTimesFromEmpty(product: Product, n: nat)
    ensures n >= 1 ==> AddTimes([], product, n) == [CartItem(product, n)]
    ensures TotalPrice(AddTimes([], product, n)) == product.price * n
  {
    if n == 0 {
    } else {
      AddTimesFromEmpty(product, n - 1);
      AddOneMore(AddTimes([], product, n - 1), product, n - 1);
      assert product.price * (n - 1) + product.price == product.price * n;
    }
  }

  /** One more `addToCart(product)` on a cart holding only `m` units of it. */
  lemma AddOneMore(cart: seq<CartItem>, product: Product, m: nat)
    requires if m == 0 then cart == [] else cart == [CartItem(product, m)]
    ensures AddToCart(cart, product) == [CartItem(product, m + 1)]
    ensures TotalPrice(AddToCart(cart, product)) == TotalPrice(cart) + product.price
  {
    if m == 0 {
      AddToCartNew(cart, product);
    } else {
      AddToCartExisting(cart, product, 0);
    }
    TotalAfterAdd(cart, product);
  }

  /** The cart badge shows `cart.length`: the number of distinct products in the cart, not of units. */
  lemma {:induction false} LineCountIsProductCount(cart: seq<CartItem>)
    requires DistinctIds(cart)
    ensures |Ids(cart)| == |cart|
  {
    if cart != [] {
      LineCountIsProductCount(cart[1..]);
    }
  }

  /** Two blood oranges and one archive hoodie: two lines, 350 * 2 + 2500 = 3200 in all. */
  lemma CartScenario()
    ensures var cart := AddToCart(AddToCart(AddToCart([], Products[0]), Products[0]), Products[2]);
            |cart| == 2 && TotalPrice(cart) == 3200
  {
    var a, b := Products[0], Products[2];
    assert a.price == 350 && b.price == 2500 && a.id != b.id;
    var c2 := AddToCart(AddToCart([], a), a);
    AddOneMore([], a, 0);
    AddOneMore([CartItem(a, 1)], a, 1);
    assert c2 == [CartItem(a, 2)] && TotalPrice(c2) == 700;
    AddToCartNew(c2, b);
    TotalAfterAdd(c2, b);
  }
}
