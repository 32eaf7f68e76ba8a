/** The point-of-sale cart of `PDVPage` and of `VendasPDV`: both pages keep a
    list of items keyed by product id and change it with the same
    find/map/filter expressions (`addToCart`, `updateQuantity`, `total`). */
module Cart {
  import opened Seqs

  datatype CartItem = CartItem(productId: string, name: string, price: real, quantity: int)

  function Lacks(id: string): CartItem -> bool {
    (it: CartItem) => it.productId != id
  }

  function Matches(id: string): CartItem -> bool {
    (it: CartItem) => it.productId == id
  }

  predicate InCart(cart: seq<CartItem>, id: string) {
    FindIndex(cart, Matches(id)).Some?
  }

  predicate UniqueIds(cart: seq<CartItem>) {
    forall i, j :: 0 <= i < j < |cart| ==> cart[i].productId != cart[j].productId
  }

  /** The invariant the cart operations keep: one item per product, and every
      item holds at least one unit. */
  predicate Valid(cart: seq<CartItem>) {
    UniqueIds(cart) && forall i :: 0 <= i < |cart| ==> cart[i].quantity >= 1
  }

  function Subtotal(it: CartItem): real {
    it.price * it.quantity as real
  }

  /** `cart.reduce((sum, item) => sum + item.price * item.quantity, 0)`. */
  function Total(cart: seq<CartItem>): real
    decreases |cart|
  {
    if cart == [] then 0.0 else Total(cart[..|cart| - 1]) + Subtotal(cart[|cart| - 1])
  }

  /** Adds one unit of a product: the item already holding it gains one unit,
      otherwise a new item with one unit goes at the end. */
  function AddToCart(cart: seq<CartItem>, id: string, name: string, price: real): (r: seq<CartItem>)
    ensures InCart(cart, id) ==> |r| == |cart|
    ensures InCart(cart, id) ==> forall i :: 0 <= i < |cart| ==>
      r[i] == if cart[i].productId == id then cart[i].(quantity := cart[i].quantity + 1) else cart[i]
    ensures !InCart(cart, id) ==> r == cart + [CartItem(id, name, price, 1)]
  {
    if InCart(cart, id) then
      seq(|cart|, i requires 0 <= i < |cart| =>
        if cart[i].productId == id then cart[i].(quantity := cart[i].quantity + 1) else cart[i])
    else cart + [CartItem(id, name, price, 1)]
  }

  /** A quantity of zero or less removes the product; any other quantity
      replaces that item's quantity. */
  function UpdateQuantity(cart: seq<CartItem>, id: string, quantity: int): (r: seq<CartItem>)
    ensures quantity <= 0 ==> IsSubseq(r, cart)
    ensures quantity <= 0 ==> forall i :: 0 <= i < |r| ==> r[i].productId != id
    ensures quantity <= 0 ==> forall i :: 0 <= i < |cart| && cart[i].productId != id ==> cart[i] in r
    ensures quantity > 0 ==> |r| == |cart|
    ensures quantity > 0 ==> forall i :: 0 <= i < |cart| ==>
      r[i] == if cart[i].productId == id then cart[i].(quantity := quantity) else cart[i]
  {
    if quantity <= 0 then
      FilterIsSubseq(cart, Lacks(id));
      Filter(cart, Lacks(id))
    else
      seq(|cart|, i requires 0 <= i < |cart| =>
        if cart[i].productId == id then cart[i].(quantity := quantity) else cart[i])
  }

  lemma AddToCartValid(cart: seq<CartItem>, id: string, name: string, price: real)
    requires Valid(cart)
    ensures Valid(AddToCart(cart, id, name, price))
  {
    if !InCart(cart, id) {
      var r := AddToCart(cart, id, name, price);
      assert forall i :: 0 <= i < |cart| ==> cart[i].productId != id;
      assert forall i :: 0 <= i < |cart| ==> r[i] == cart[i];
    }
  }

  lemma UpdateQuantityValid(cart: seq<CartItem>, id: string, quantity: int)
    requires Valid(cart)
    ensures Valid(UpdateQuantity(cart, id, quantity))
  {
    if quantity <= 0 {
      var r := UpdateQuantity(cart, id, quantity);
      SubseqUnique(r, cart);
    }
  }

  lemma {:induction false} SubseqUnique(a: seq<CartItem>, b: seq<CartItem>)
    requires IsSubseq(a, b) && Valid(b)
    ensures Valid(a)
    decreases |b|
  {
    if a != [] && b != [] {
      if a[0] == b[0] {
        SubseqUnique(a[1..], b[1..]);
        SubseqMembers(a[1..], b[1..]);
        forall i, j | 0 <= i < j < |a| ensures a[i].productId != a[j].productId {
          if i == 0 {
            assert a[j] == a[1..][j - 1];
            var m :| 0 <= m < |b[1..]| && b[1..][m] == a[j];
            assert b[m + 1] == a[j];
          } else {
            assert a[i] == a[1..][i - 1] && a[j] == a[1..][j - 1];
          }
        }
        forall i | 0 <= i < |a| ensures a[i].quantity >= 1 {
          if i > 0 {
            assert a[i] == a[1..][i - 1];
          }
        }
      } else {
        SubseqUnique(a, b[1..]);
      }
    }
  }

  /** Every element of a subsequence occurs in the sequence. */
  lemma {:induction false} SubseqMembers<T>(a: seq<T>, b: seq<T>)
    requires IsSubseq(a, b)
    ensures forall i :: 0 <= i < |a| ==> exists m :: 0 <= m < |b| && b[m] == a[i]
    decreases |b|
  {
    if a != [] && b != [] {
      if a[0] == b[0] {
        SubseqMembers(a[1..], b[1..]);
        forall i | 0 <= i < |a| ensures exists m :: 0 <= m < |b| && b[m] == a[i] {
          if i == 0 {
            assert b[0] == a[0];
          } else {
            assert a[i] == a[1..][i - 1];
            var m :| 0 <= m < |b[1..]| && b[1..][m] == a[i];
            assert b[m + 1] == a[i];
          }
        }
      } else {
        SubseqMembers(a, b[1..]);
        forall i | 0 <= i < |a| ensures exists m :: 0 <= m < |b| && b[m] == a[i] {
          var m :| 0 <= m < |b[1..]| && b[1..][m] == a[i];
          assert b[m + 1] == a[i];
        }
      }
    }
  }

  lemma {:induction false} TotalAppend(a: seq<CartItem>, b: seq<CartItem>)
    ensures Total(a + b) == Total(a) + Total(b)
    decreases |b|
  {
    if b == [] {
      assert a + b == a;
    } else {
      assert (a + b)[..|a + b| - 1] == a + b[..|b| - 1];
      TotalAppend(a, b[..|b| - 1]);
    }
  }

  /** Changing one item changes the total by the change of that item's subtotal. */
  lemma {:induction false} TotalChangeAt(a: seq<CartItem>, b: seq<CartItem>, k: nat)
    requires |a| == |b| && k < |a|
    requires forall i :: 0 <= i < |a| && i != k ==> a[i] == b[i]
    ensures Total(b) == Total(a) - Subtotal(a[k]) + Subtotal(b[k])
    decreases |a|
  {
    var n := |a|;
    if k == n - 1 {
      assert a[..n - 1] == b[..n - 1];
    } else {
      TotalChangeAt(a[..n - 1], b[..n - 1], k);
    }
  }

  /** Adding one more unit of a product already in the cart raises the total
      by the unit price that item carries. */
  lemma TotalAddExisting(cart: seq<CartItem>, k: nat, name: string, price: real)
    requires UniqueIds(cart) && k < |cart|
    ensures Total(AddToCart(cart, cart[k].productId, name, price)) == Total(cart) + cart[k].price
  {
    AddExistingChangesOne(cart, k, name, price);
    TotalBumpAt(cart, AddToCart(cart, cart[k].productId, name, price), k);
  }

  /** Adding one unit of a product raises the total by one unit price: the
      price the cart already holds for it, or the given price for a new item. */
  lemma TotalAddToCart(cart: seq<CartItem>, id: string, name: string, price: real)
    requires UniqueIds(cart)
    ensures Total(AddToCart(cart, id, name, price)) == Total(cart) +
      (if InCart(cart, id) then cart[FindIndex(cart, Matches(id)).value].price else price)
  {
    match FindIndex(cart, Matches(id)) {
      case Some(k) =>
        TotalAddExisting(cart, k, name, price);
      case None =>
        TotalAddNew(cart, id, name, price);
    }
  }

  lemma TotalBumpAt(a: seq<CartItem>, b: seq<CartItem>, k: nat)
    requires |a| == |b| && k < |a|
    requires forall i :: 0 <= i < |a| && i != k ==> b[i] == a[i]
    requires b[k] == a[k].(quantity := a[k].quantity + 1)
    ensures Total(b) == Total(a) + a[k].price
  {
    TotalChangeAt(a, b, k);
    SubtotalSucc(a[k]);
  }

  lemma AddExistingChangesOne(cart: seq<CartItem>, k: nat, name: string, price: real)
    requires UniqueIds(cart) && k < |cart|
    ensures var r := AddToCart(cart, cart[k].productId, name, price);
      |r| == |cart| && r[k] == cart[k].(quantity := cart[k].quantity + 1) &&
      forall i :: 0 <= i < |cart| && i != k ==> r[i] == cart[i]
  {
    var id := cart[k].productId;
    assert Matches(id)(cart[k]);
    assert InCart(cart, id);
  }

  lemma SubtotalSucc(it: CartItem)
    ensures Subtotal(it.(quantity := it.quantity + 1)) == Subtotal(it) + it.price
  {
    var q := it.quantity as real;
    assert (it.quantity + 1) as real == q + 1.0;
    assert it.price * (q + 1.0) == it.price * q + it.price;
  }

  /** Adding a product that is not in the cart raises the total by its price. */
  lemma TotalAddNew(cart: seq<CartItem>, id: string, name: string, price: real)
    requires !InCart(cart, id)
    ensures Total(AddToCart(cart, id, name, price)) == Total(cart) + price
  {
    var item := CartItem(id, name, price, 1);
    assert AddToCart(cart, id, name, price) == cart + [item];
    assert (cart + [item])[..|cart|] == cart;
  }

  /** Removing the item of product `k` leaves the items before and after it. */
  lemma RemoveAt(cart: seq<CartItem>, k: nat)
    requires UniqueIds(cart) && k < |cart|
    ensures Filter(cart, Lacks(cart[k].productId)) == cart[..k] + cart[k + 1..]
  {
    var p := Lacks(cart[k].productId);
    forall i | 0 <= i < |cart| && i != k ensures p(cart[i]) {
      if i < k {
        assert cart[i].productId != cart[k].productId;
      } else {
        assert cart[k].productId != cart[i].productId;
      }
    }
    FilterDropsAt(cart, k, p);
  }

  /** Setting the quantity of product `cart[k]` to `q` replaces that item's
      subtotal in the total by its subtotal at quantity `q`, or by nothing
      when `q <= 0` removes it. */
  lemma TotalUpdateQuantity(cart: seq<CartItem>, k: nat, q: int)
    requires UniqueIds(cart) && k < |cart|
    ensures Total(UpdateQuantity(cart, cart[k].productId, q)) ==
      Total(cart) - Subtotal(cart[k]) + (if q > 0 then Subtotal(cart[k].(quantity := q)) else 0.0)
  {
    if q <= 0 {
      TotalRemove(cart, k, q);
    } else {
      SetQuantityChangesOne(cart, k, q);
      TotalSetAt(cart, UpdateQuantity(cart, cart[k].productId, q), k, q);
    }
  }

  lemma TotalSetAt(a: seq<CartItem>, b: seq<CartItem>, k: nat, q: int)
    requires |a| == |b| && k < |a|
    requires forall i :: 0 <= i < |a| && i != k ==> b[i] == a[i]
    requires b[k] == a[k].(quantity := q)
    ensures Total(b) == Total(a) - Subtotal(a[k]) + Subtotal(a[k].(quantity := q))
  {
    TotalChangeAt(a, b, k);
  }

  lemma TotalRemove(cart: seq<CartItem>, k: nat, q: int)
    requires UniqueIds(cart) && k < |cart| && q <= 0
    ensures Total(UpdateQuantity(cart, cart[k].productId, q)) == Total(cart) - Subtotal(cart[k])
  {
    var r := UpdateQuantity(cart, cart[k].productId, q);
    RemoveAt(cart, k);
    assert r == cart[..k] + cart[k + 1..];
    TotalAppend(cart[..k], cart[k + 1..]);
    TotalSplit(cart, k);
  }

  lemma SetQuantityChangesOne(cart: seq<CartItem>, k: nat, q: int)
    requires UniqueIds(cart) && k < |cart| && q > 0
    ensures var r := UpdateQuantity(cart, cart[k].productId, q);
      |r| == |cart| && r[k] == cart[k].(quantity := q) &&
      forall i :: 0 <= i < |cart| && i != k ==> r[i] == cart[i]
  {
  }

  /** The total is the subtotal of item `k` plus the totals on either side of it. */
  lemma TotalSplit(cart: seq<CartItem>, k: nat)
    requires k < |cart|
    ensures Total(cart) == Total(cart[..k]) + Subtotal(cart[k]) + Total(cart[k + 1..])
  {
    var pre, post := cart[..k], cart[k + 1..];
    calc {
      Total(cart);
      { assert cart == (pre + [cart[k]]) + post; }
      Total((pre + [cart[k]]) + post);
      { TotalAppend(pre + [cart[k]], post); }
      Total(pre + [cart[k]]) + Total(post);
      { assert (pre + [cart[k]])[..|pre|] == pre; }
      Total(pre) + Subtotal(cart[k]) + Total(post);
    }
  }

  /** Updating a product that is not in the cart changes nothing. */
  lemma UpdateAbsent(cart: seq<CartItem>, id: string, q: int)
    requires !InCart(cart, id)
    ensures UpdateQuantity(cart, id, q) == cart
  {
    if q <= 0 {
      FilterKeepsAll(cart, Lacks(id));
    }
  }

  lemma {:induction false} TotalNonNegative(cart: seq<CartItem>)
    requires forall i :: 0 <= i < |cart| ==> cart[i].price >= 0.0 && cart[i].quantity >= 0
    ensures Total(cart) >= 0.0
    decreases |cart|
  {
    if cart != [] {
      var last := cart[|cart| - 1];
      TotalNonNegative(cart[..|cart| - 1]);
      assert last.price * last.quantity as real >= 0.0;
    }
  }
}
