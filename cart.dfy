/** The point-of-sale cart: entries keyed by item name, each with a quantity.
    Every transition is a function from the previous cart to the next one. */
module Cart {
  import opened Wrappers
  import Seqs
  import Backend

  datatype CartItem = CartItem(name: string, price: real, quantity: int, category: Option<string>)

  predicate HasName(cart: seq<CartItem>, name: string) {
    exists i :: 0 <= i < |cart| && cart[i].name == name
  }

  /** No two entries share a name. */
  predicate DistinctNames(cart: seq<CartItem>) {
    forall i, j :: 0 <= i < j < |cart| ==> cart[i].name != cart[j].name
  }

  predicate IsPositive(item: CartItem) { item.quantity > 0 }

  predicate AllPositive(cart: seq<CartItem>) {
    forall i :: 0 <= i < |cart| ==> IsPositive(cart[i])
  }

  /** The invariant every cart reachable from the empty one keeps. */
  predicate Valid(cart: seq<CartItem>) { DistinctNames(cart) && AllPositive(cart) }

  /** The entries named `name` get `delta` added to their quantity; nothing else changes. */
  function Bump(cart: seq<CartItem>, name: string, delta: int): (r: seq<CartItem>)
    ensures |r| == |cart|
    ensures forall k :: 0 <= k < |r| ==>
      r[k] == if cart[k].name == name then cart[k].(quantity := cart[k].quantity + delta) else cart[k]
  {
    seq(|cart|, k requires 0 <= k < |cart| =>
      if cart[k].name == name then cart[k].(quantity := cart[k].quantity + delta) else cart[k])
  }

  /** `addToCart`: one more of an item already in the cart, or a new entry of quantity 1. */
  function AddToCart(cart: seq<CartItem>, item: Backend.MenuItem): (r: seq<CartItem>)
    ensures |r| == if HasName(cart, item.name) then |cart| else |cart| + 1
    ensures forall i :: 0 <= i < |cart| ==> r[i].name == cart[i].name
    ensures HasName(r, item.name)
  {
    if HasName(cart, item.name) then Bump(cart, item.name, 1)
    else
      var r := cart + [CartItem(item.name, item.price, 1, item.category)];
      assert r[|cart|].name == item.name;
      r
  }

  /** Adding an item whose name is in the cart raises that entry's quantity by one and
      changes nothing else: no entry is added. */
  lemma AddToCartExisting(cart: seq<CartItem>, item: Backend.MenuItem, k: nat)
    requires DistinctNames(cart) && k < |cart| && cart[k].name == item.name
    ensures AddToCart(cart, item) == cart[k := cart[k].(quantity := cart[k].quantity + 1)]
  {
  }

  /** Adding an item with a new name appends one entry of quantity 1 at the end. */
  lemma AddToCartNew(cart: seq<CartItem>, item: Backend.MenuItem)
    requires !HasName(cart, item.name)
    ensures var r := AddToCart(cart, item);
      |r| == |cart| + 1 && r[..|cart|] == cart
      && r[|cart|] == CartItem(item.name, item.price, 1, item.category)
  {
  }

  /** `updateQuantity`: the named entries change quantity by `delta`, then every entry
      whose quantity is not positive is dropped. */
  function UpdateQuantity(cart: seq<CartItem>, name: string, delta: int): (r: seq<CartItem>)
    ensures AllPositive(r) && |r| <= |cart|
  {
    Seqs.Filter(Bump(cart, name, delta), IsPositive)
  }

  /** On a valid cart, updating the quantity of the entry at `k` either rewrites that
      entry's quantity in place or, when it falls to zero or below, removes exactly that
      entry; the other entries stay, in order. */
  lemma UpdateQuantityExisting(cart: seq<CartItem>, name: string, delta: int, k: nat)
    requires Valid(cart) && k < |cart| && cart[k].name == name
    ensures var bumped := cart[k].(quantity := cart[k].quantity + delta);
      UpdateQuantity(cart, name, delta) ==
        if bumped.quantity > 0 then cart[k := bumped] else cart[..k] + cart[k + 1..]
  {
    var b := Bump(cart, name, delta);
    var bumped := cart[k].(quantity := cart[k].quantity + delta);
    if bumped.quantity > 0 {
      assert b == cart[k := bumped];
      Seqs.FilterKeepsAll(b, IsPositive);
    } else {
      Seqs.FilterDropsOne(b, IsPositive, k);
      assert b[..k] == cart[..k] && b[k + 1..] == cart[k + 1..];
    }
  }

  /** On a valid cart, updating a name that is not in it changes nothing. */
  lemma UpdateQuantityAbsent(cart: seq<CartItem>, name: string, delta: int)
    requires Valid(cart) && !HasName(cart, name)
    ensures UpdateQuantity(cart, name, delta) == cart
  {
    assert Bump(cart, name, delta) == cart;
    Seqs.FilterKeepsAll(cart, IsPositive);
  }

  function NameIsNot(name: string): CartItem -> bool {
    (item: CartItem) => item.name != name
  }

  /** `removeFromCart`: every entry named `name` is dropped, the rest kept in order. */
  function RemoveFromCart(cart: seq<CartItem>, name: string): (r: seq<CartItem>)
    ensures !HasName(r, name) && |r| <= |cart|
  {
    var r := Seqs.Filter(cart, NameIsNot(name));
    assert forall i :: 0 <= i < |r| ==> NameIsNot(name)(r[i]);
    r
  }

  /** Removing the name of the entry at `k` from a cart with distinct names removes exactly
      that entry and keeps the others in order. */
  lemma RemoveFromCartExisting(cart: seq<CartItem>, name: string, k: nat)
    requires DistinctNames(cart) && k < |cart| && cart[k].name == name
    ensures RemoveFromCart(cart, name) == cart[..k] + cart[k + 1..]
  {
    Seqs.FilterDropsOne(cart, NameIsNot(name), k);
  }

  /** Removing a name that is not in the cart changes nothing. */
  lemma RemoveFromCartAbsent(cart: seq<CartItem>, name: string)
    requires !HasName(cart, name)
    ensures RemoveFromCart(cart, name) == cart
  {
    Seqs.FilterKeepsAll(cart, NameIsNot(name));
  }

  /** `clearCart` */
  function ClearCart(): (r: seq<CartItem>)
    ensures |r| == 0
  {
    []
  }

  function LineTotal(item: CartItem): real { item.price * item.quantity as real }

  /** `cart.reduce((sum, item) => sum + item.price * item.quantity, 0)`: the sum of
      price times quantity over the entries, left to right. */
  function Subtotal(cart: seq<CartItem>): (r: real)
    ensures cart == [] ==> r == 0.0
    ensures |cart| == 1 ==> r == LineTotal(cart[0])
  {
    if cart == [] then 0.0 else Subtotal(cart[..|cart| - 1]) + LineTotal(cart[|cart| - 1])
  }

  /** The total charged: the subtotal (there is no tax or discount). */
  function Total(cart: seq<CartItem>): (r: real)
    ensures cart == [] ==> r == 0.0
    ensures |cart| == 1 ==> r == cart[0].price * cart[0].quantity as real
  {
    Subtotal(cart)
  }

  /** The subtotal of two carts laid end to end is the sum of their subtotals. */
  lemma {:induction false} SubtotalConcat(a: seq<CartItem>, b: seq<CartItem>)
    ensures Subtotal(a + b) == Subtotal(a) + Subtotal(b)
  {
    if b != [] {
      var c := b[..|b| - 1];
      assert (a + b)[..|a + b| - 1] == a + c;
      SubtotalConcat(a, c);
    } else {
      assert a + b == a;
    }
  }

  /** With non-negative prices and positive quantities the subtotal is not negative,
      and the empty cart totals zero. */
  lemma {:induction false} SubtotalNonNegative(cart: seq<CartItem>)
    requires AllPositive(cart) && forall i :: 0 <= i < |cart| ==> cart[i].price >= 0.0
    ensures Total(cart) >= 0.0 && Total(ClearCart()) == 0.0
  {
    if cart != [] {
      SubtotalNonNegative(cart[..|cart| - 1]);
    }
  }

  /** The subtotal around one entry: the parts before and after it, plus its line total. */
  lemma SubtotalSplit(front: seq<CartItem>, x: CartItem, back: seq<CartItem>)
    ensures Subtotal(front + [x] + back) == Subtotal(front) + LineTotal(x) + Subtotal(back)
  {
    SubtotalConcat(front + [x], back);
    SubtotalConcat(front, [x]);
    assert Subtotal([x]) == LineTotal(x) by { assert [x][..0] == []; }
  }

  /** Replacing the entry at `k` changes the subtotal by the difference of line totals. */
  lemma SubtotalReplace(cart: seq<CartItem>, k: nat, x: CartItem)
    requires k < |cart|
    ensures Subtotal(cart[k := x]) == Subtotal(cart) - LineTotal(cart[k]) + LineTotal(x)
  {
    var front, back := cart[..k], cart[k + 1..];
    assert cart == front + [cart[k]] + back;
    assert cart[k := x] == front + [x] + back;
    SubtotalSplit(front, cart[k], back);
    SubtotalSplit(front, x, back);
  }

  /** Dropping the entry at `k` lowers the subtotal by that entry's line total. */
  lemma SubtotalDrop(cart: seq<CartItem>, k: nat)
    requires k < |cart|
    ensures Subtotal(cart[..k] + cart[k + 1..]) == Subtotal(cart) - LineTotal(cart[k])
  {
    Seqs.SplitAt(cart, k);
    SubtotalWithout(cart[..k], cart[k], cart[k + 1..]);
  }

  lemma SubtotalWithout(front: seq<CartItem>, x: CartItem, back: seq<CartItem>)
    ensures Subtotal(front + back) == Subtotal(front + [x] + back) - LineTotal(x)
  {
    SubtotalSplit(front, x, back);
    SubtotalConcat(front, back);
  }

  /** Adding an item whose name is carried by the entry at `k` raises the subtotal by
      that entry's unit price (which may differ from the item's own price). */
  lemma AddToCartSubtotalExisting(cart: seq<CartItem>, item: Backend.MenuItem, k: nat)
    requires DistinctNames(cart) && k < |cart| && cart[k].name == item.name
    ensures Subtotal(AddToCart(cart, item)) == Subtotal(cart) + cart[k].price
  {
    SubtotalOneMore(cart, k);
    AddToCartExisting(cart, item, k);
  }

  lemma SubtotalOneMore(cart: seq<CartItem>, k: nat)
    requires k < |cart|
    ensures Subtotal(cart[k := cart[k].(quantity := cart[k].quantity + 1)]) == Subtotal(cart) + cart[k].price
  {
    SubtotalReplace(cart, k, cart[k].(quantity := cart[k].quantity + 1));
    LineTotalOneMore(cart[k]);
  }

  lemma LineTotalOneMore(x: CartItem)
    ensures LineTotal(x.(quantity := x.quantity + 1)) == LineTotal(x) + x.price
  {
  }

  /** Adding an item with a new name raises the subtotal by the item's price. */
  lemma AddToCartSubtotalNew(cart: seq<CartItem>, item: Backend.MenuItem)
    requires !HasName(cart, item.name)
    ensures Subtotal(AddToCart(cart, item)) == Subtotal(cart) + item.price
  {
    var x := CartItem(item.name, item.price, 1, item.category);
    AddToCartNew(cart, item);
    assert AddToCart(cart, item) == cart + [x];
    SubtotalConcat(cart, [x]);
    assert Subtotal([x]) == LineTotal(x) by { assert [x][..0] == []; }
  }

  /** Removing the entry at `k` lowers the subtotal by exactly that entry's line total. */
  lemma RemoveFromCartSubtotal(cart: seq<CartItem>, k: nat)
    requires DistinctNames(cart) && k < |cart|
    ensures Subtotal(RemoveFromCart(cart, cart[k].name)) == Subtotal(cart) - LineTotal(cart[k])
  {
    RemoveFromCartExisting(cart, cart[k].name, k);
    SubtotalDrop(cart, k);
  }

  /** Rewriting one entry's quantity to a positive value, keeping its name, keeps the
      cart valid; so does dropping one entry. */
  lemma ValidAfterReplace(cart: seq<CartItem>, k: nat, x: CartItem)
    requires Valid(cart) && k < |cart| && x.name == cart[k].name && x.quantity > 0
    ensures Valid(cart[k := x])
  {
  }

  lemma ValidAfterDrop(cart: seq<CartItem>, k: nat)
    requires Valid(cart) && k < |cart|
    ensures Valid(cart[..k] + cart[k + 1..])
  {
    var r := cart[..k] + cart[k + 1..];
    forall i | 0 <= i < |r| ensures r[i] == cart[if i < k then i else i + 1] {}
  }

  lemma ValidAfterAppend(cart: seq<CartItem>, x: CartItem)
    requires Valid(cart) && !HasName(cart, x.name) && x.quantity > 0
    ensures Valid(cart + [x])
  {
  }

  /** A button press on the POS screen. */
  datatype CartAction =
    | Add(item: Backend.MenuItem)
    | Update(name: string, delta: int)
    | Remove(name: string)
    | Clear

  function Apply(cart: seq<CartItem>, action: CartAction): seq<CartItem> {
    match action
    case Add(item) => AddToCart(cart, item)
    case Update(name, delta) => UpdateQuantity(cart, name, delta)
    case Remove(name) => RemoveFromCart(cart, name)
    case Clear => ClearCart()
  }

  function ApplyAll(cart: seq<CartItem>, actions: seq<CartAction>): seq<CartItem>
    decreases |actions|
  {
    if actions == [] then cart else ApplyAll(Apply(cart, actions[0]), actions[1..])
  }

  /** Every cart action keeps names distinct and quantities positive. */
  lemma ApplyPreservesValid(cart: seq<CartItem>, action: CartAction)
    requires Valid(cart)
    ensures Valid(Apply(cart, action))
  {
    match action
    case Add(item) =>
      if HasName(cart, item.name) {
        var k :| 0 <= k < |cart| && cart[k].name == item.name;
        AddToCartExisting(cart, item, k);
        ValidAfterReplace(cart, k, cart[k].(quantity := cart[k].quantity + 1));
      } else {
        ValidAfterAppend(cart, CartItem(item.name, item.price, 1, item.category));
      }
    case Update(name, delta) =>
      if HasName(cart, name) {
        var k :| 0 <= k < |cart| && cart[k].name == name;
        UpdateQuantityExisting(cart, name, delta, k);
        var bumped := cart[k].(quantity := cart[k].quantity + delta);
        if bumped.quantity > 0 {
          ValidAfterReplace(cart, k, bumped);
        } else {
          ValidAfterDrop(cart, k);
        }
      } else {
        UpdateQuantityAbsent(cart, name, delta);
      }
    case Remove(name) =>
      if HasName(cart, name) {
        var k :| 0 <= k < |cart| && cart[k].name == name;
        RemoveFromCartExisting(cart, name, k);
        ValidAfterDrop(cart, k);
      } else {
        RemoveFromCartAbsent(cart, name);
      }
    case Clear =>
  }

  /** Whatever the buttons pressed, starting from the empty cart the names in the cart
      stay pairwise distinct and every quantity stays positive. */
  lemma {:induction false} ReachableCartsAreValid(cart: seq<CartItem>, actions: seq<CartAction>)
    requires Valid(cart)
    ensures Valid(ApplyAll(cart, actions))
    decreases |actions|
  {
    if actions != [] {
      ApplyPreservesValid(cart, actions[0]);
      ReachableCartsAreValid(Apply(cart, actions[0]), actions[1..]);
    }
  }

  /** The POS screen's state: the cart and whether the checkout dialog is open. */
  datatype PosScreen = PosScreen(cart: seq<CartItem>, checkoutOpen: bool)

  /** `handleCheckoutSuccess`: the cart is emptied and the dialog closed, so the next sale
      starts from a zero total. */
  function HandleCheckoutSuccess(screen: PosScreen): (r: PosScreen)
    ensures r.cart == [] && !r.checkoutOpen && Total(r.cart) == 0.0
  {
    PosScreen(ClearCart(), false)
  }
}
