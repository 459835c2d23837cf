/**
 * The cart lines of `ShoppingCartSystem` (js/shopping-cart-tr.js) and what
 * each of its list operations does to them, as functions of the old list.
 * The class in ControllerCart applies them to its `cart` field.
 *
 * Ids come from `Date.now()` in the source; here they are arguments, and
 * nothing makes them unique unless a caller says so.
 */
module ControllerLines {
  import opened Wrappers

  /** A line: `image` is `null` when `addToCart` was called without one. */
  datatype CartLine = CartLine(id: int, name: string, price: int, image: Option<string>, quantity: int)

  function LineTotal(line: CartLine): int {
    line.price * line.quantity
  }

  function Quantity(line: CartLine): int {
    line.quantity
  }

  /** The sum of `amount` over the lines, folded from the left as `reduce` does. */
  function SumOf(amount: CartLine -> int, cart: seq<CartLine>): int {
    if cart == [] then 0 else SumOf(amount, cart[..|cart| - 1]) + amount(cart[|cart| - 1])
  }

  /** `getTotal`: the sum of `price * quantity`. */
  function Total(cart: seq<CartLine>): int {
    SumOf(LineTotal, cart)
  }

  /** `getTotalItems`: the sum of the quantities. */
  function TotalItems(cart: seq<CartLine>): int {
    SumOf(Quantity, cart)
  }

  predicate QuantitiesPositive(cart: seq<CartLine>) {
    forall i :: 0 <= i < |cart| ==> cart[i].quantity >= 1
  }

  predicate NamesDistinct(cart: seq<CartLine>) {
    forall j, k :: 0 <= j < k < |cart| ==> cart[j].name != cart[k].name
  }

  predicate IdsDistinct(cart: seq<CartLine>) {
    forall j, k :: 0 <= j < k < |cart| ==> cart[j].id != cart[k].id
  }

  /** `cart.find(item => item.name === name)`, as the index of the first such line, or -1. */
  function IndexOfName(cart: seq<CartLine>, name: string): (r: int)
    ensures -1 <= r < |cart|
    ensures r >= 0 ==> cart[r].name == name && forall j :: 0 <= j < r ==> cart[j].name != name
    ensures r == -1 <==> forall j :: 0 <= j < |cart| ==> cart[j].name != name
  {
    if cart == [] then -1
    else if cart[0].name == name then 0
    else
      var r := IndexOfName(cart[1..], name);
      if r == -1 then -1 else r + 1
  }

  /** `cart.findIndex(item => item.id === id)`: the first line with that id, or -1. */
  function IndexOfId(cart: seq<CartLine>, id: int): (r: int)
    ensures -1 <= r < |cart|
    ensures r >= 0 ==> cart[r].id == id && forall j :: 0 <= j < r ==> cart[j].id != id
    ensures r == -1 <==> forall j :: 0 <= j < |cart| ==> cart[j].id != id
  {
    if cart == [] then -1
    else if cart[0].id == id then 0
    else
      var r := IndexOfId(cart[1..], id);
      if r == -1 then -1 else r + 1
  }

  /**
   * `addToCart(name, price, image)`: a line with that name gets one more
   * unit (the passed price and image are ignored); otherwise
   * `{id, name, price, image, quantity: 1}` is appended.
   */
  function AddLine(cart: seq<CartLine>, id: int, name: string, price: int, image: Option<string>): (r: seq<CartLine>)
    ensures var i := IndexOfName(cart, name);
      i >= 0 ==>
        && |r| == |cart|
        && r[i] == cart[i].(quantity := cart[i].quantity + 1)
        && forall j :: 0 <= j < |cart| && j != i ==> r[j] == cart[j]
    ensures IndexOfName(cart, name) == -1 ==> r == cart + [CartLine(id, name, price, image, 1)]
  {
    var i := IndexOfName(cart, name);
    if i >= 0 then cart[i := cart[i].(quantity := cart[i].quantity + 1)]
    else cart + [CartLine(id, name, price, image, 1)]
  }

  /** `removeFromCart(id)`: `splice` out the first line with that id, if any. */
  function RemoveById(cart: seq<CartLine>, id: int): (r: seq<CartLine>)
    ensures IndexOfId(cart, id) == -1 ==> r == cart
    ensures var i := IndexOfId(cart, id);
      i >= 0 ==> |r| == |cart| - 1 && r[..i] == cart[..i] && r[i..] == cart[i + 1..]
  {
    var i := IndexOfId(cart, id);
    if i > -1 then cart[..i] + cart[i + 1..] else cart
  }

  /** `updateQuantity(id, q)`: nothing for an unknown id, removal for `q <= 0`, else set the quantity. */
  function UpdateQuantity(cart: seq<CartLine>, id: int, quantity: int): (r: seq<CartLine>)
    ensures IndexOfId(cart, id) == -1 ==> r == cart
    ensures IndexOfId(cart, id) >= 0 && quantity <= 0 ==> r == RemoveById(cart, id)
    ensures var i := IndexOfId(cart, id);
      i >= 0 && quantity > 0 ==>
        && |r| == |cart|
        && r[i] == cart[i].(quantity := quantity)
        && forall j :: 0 <= j < |cart| && j != i ==> r[j] == cart[j]
  {
    var i := IndexOfId(cart, id);
    if i < 0 then cart
    else if quantity <= 0 then RemoveById(cart, id)
    else cart[i := cart[i].(quantity := quantity)]
  }

  /** Summary shown before checkout: item count, subtotal and the total with flat shipping. */
  datatype CheckoutQuote = CheckoutQuote(itemCount: int, subtotal: int, total: int)

  /** Shipping fee added at checkout, whatever the subtotal. */
  const FlatShipping: int := 50

  /** `checkout`'s summary: none for an empty cart, else the total is `getTotal() + 50`. */
  function QuoteOf(cart: seq<CartLine>): (q: Option<CheckoutQuote>)
    ensures q.None? <==> cart == []
    ensures q.Some? ==>
      && q.value.subtotal == Total(cart)
      && q.value.itemCount == TotalItems(cart)
      && q.value.total == q.value.subtotal + FlatShipping
  {
    if cart == [] then None else Some(CheckoutQuote(TotalItems(cart), Total(cart), Total(cart) + FlatShipping))
  }

  // ----- sums -----

  /** Changing a line's quantity changes its total by the price times the change. */
  lemma LineTotalWithQuantity(line: CartLine, quantity: int)
    ensures LineTotal(line.(quantity := quantity)) == LineTotal(line) + line.price * (quantity - line.quantity)
  {
    assert line.price * quantity == line.price * line.quantity + line.price * (quantity - line.quantity);
  }

  lemma {:induction false} SumConcat(amount: CartLine -> int, a: seq<CartLine>, b: seq<CartLine>)
    ensures SumOf(amount, a + b) == SumOf(amount, a) + SumOf(amount, b)
  {
    if b != [] {
      var n := |b| - 1;
      assert (a + b)[..|a + b| - 1] == a + b[..n];
      SumConcat(amount, a, b[..n]);
    } else {
      assert a + b == a;
    }
  }

  lemma {:induction false} SumUpdate(amount: CartLine -> int, cart: seq<CartLine>, i: nat, line: CartLine)
    requires i < |cart|
    ensures SumOf(amount, cart[i := line]) == SumOf(amount, cart) - amount(cart[i]) + amount(line)
  {
    var n := |cart| - 1;
    var c' := cart[i := line];
    if i == n {
      assert c'[..n] == cart[..n];
    } else {
      SumUpdate(amount, cart[..n], i, line);
      assert c'[..n] == cart[..n][i := line];
    }
  }

  lemma SumRemoveAt(amount: CartLine -> int, cart: seq<CartLine>, i: nat)
    requires i < |cart|
    ensures SumOf(amount, cart[..i] + cart[i + 1..]) == SumOf(amount, cart) - amount(cart[i])
  {
    SumConcat(amount, cart[..i], cart[i + 1..]);
    SumSplit(amount, cart, i + 1);
    SumPrefixStep(amount, cart, i);
  }

  lemma SumSplit(amount: CartLine -> int, cart: seq<CartLine>, k: nat)
    requires k <= |cart|
    ensures SumOf(amount, cart) == SumOf(amount, cart[..k]) + SumOf(amount, cart[k..])
  {
    assert cart[..k] + cart[k..] == cart;
    SumConcat(amount, cart[..k], cart[k..]);
  }

  lemma SumPrefixStep(amount: CartLine -> int, cart: seq<CartLine>, i: nat)
    requires i < |cart|
    ensures SumOf(amount, cart[..i + 1]) == SumOf(amount, cart[..i]) + amount(cart[i])
  {
    assert cart[..i + 1][..i] == cart[..i];
  }

  /** Both sums are 0 for an empty cart, and with positive quantities the count covers every line. */
  lemma {:induction false} TotalItemsCoversLines(cart: seq<CartLine>)
    requires QuantitiesPositive(cart)
    ensures TotalItems(cart) >= |cart|
    ensures TotalItems(cart) == 0 <==> cart == []
  {
    if cart != [] {
      TotalItemsCoversLines(cart[..|cart| - 1]);
      assert TotalItems(cart) == TotalItems(cart[..|cart| - 1]) + cart[|cart| - 1].quantity;
    }
  }

  // ----- addToCart -----

  /** `addToCart` adds exactly one unit, priced at the stored price on a merge and at `price` on an append. */
  lemma AddLineTotals(cart: seq<CartLine>, id: int, name: string, price: int, image: Option<string>)
    ensures TotalItems(AddLine(cart, id, name, price, image)) == TotalItems(cart) + 1
    ensures var i := IndexOfName(cart, name);
      Total(AddLine(cart, id, name, price, image)) == Total(cart) + (if i >= 0 then cart[i].price else price)
  {
    var i := IndexOfName(cart, name);
    if i >= 0 {
      IncrementTotals(cart, i);
    } else {
      AppendTotals(cart, CartLine(id, name, price, image, 1));
    }
  }

  lemma IncrementTotals(cart: seq<CartLine>, i: nat)
    requires i < |cart|
    ensures var c := cart[i := cart[i].(quantity := cart[i].quantity + 1)];
      Total(c) == Total(cart) + cart[i].price && TotalItems(c) == TotalItems(cart) + 1
  {
    var line := cart[i].(quantity := cart[i].quantity + 1);
    SumUpdate(LineTotal, cart, i, line);
    SumUpdate(Quantity, cart, i, line);
    LineTotalWithQuantity(cart[i], cart[i].quantity + 1);
  }

  lemma AppendTotals(cart: seq<CartLine>, line: CartLine)
    ensures Total(cart + [line]) == Total(cart) + LineTotal(line)
    ensures TotalItems(cart + [line]) == TotalItems(cart) + line.quantity
  {
    assert (cart + [line])[..|cart|] == cart;
  }

  /** `addToCart` keeps names pairwise distinct, quantities positive, and ids distinct when `id` is fresh. */
  lemma AddLineInvariants(cart: seq<CartLine>, id: int, name: string, price: int, image: Option<string>)
    ensures NamesDistinct(cart) ==> NamesDistinct(AddLine(cart, id, name, price, image))
    ensures QuantitiesPositive(cart) ==> QuantitiesPositive(AddLine(cart, id, name, price, image))
    ensures IdsDistinct(cart) && IndexOfId(cart, id) == -1 ==> IdsDistinct(AddLine(cart, id, name, price, image))
  {
  }

  // ----- removeFromCart -----

  /** Removing the first line with `id` takes exactly that line's amounts off both sums. */
  lemma RemoveByIdTotals(cart: seq<CartLine>, id: int)
    requires IndexOfId(cart, id) >= 0
    ensures var i := IndexOfId(cart, id);
      && Total(RemoveById(cart, id)) == Total(cart) - LineTotal(cart[i])
      && TotalItems(RemoveById(cart, id)) == TotalItems(cart) - cart[i].quantity
  {
    var i := IndexOfId(cart, id);
    SumRemoveAt(LineTotal, cart, i);
    SumRemoveAt(Quantity, cart, i);
  }

  /** Removal keeps the other lines in order: the result is the old list with one position skipped. */
  lemma RemoveByIdKeepsOrder(cart: seq<CartLine>, id: int, k: nat)
    requires IndexOfId(cart, id) >= 0
    requires k < |cart| - 1
    ensures var i := IndexOfId(cart, id);
      RemoveById(cart, id)[k] == if k < i then cart[k] else cart[k + 1]
  {
    var i := IndexOfId(cart, id);
    var r := RemoveById(cart, id);
    if k < i {
      assert r[..i][k] == cart[..i][k];
    } else {
      assert r[i..][k - i] == cart[i + 1..][k - i];
    }
  }

  /** Removal keeps quantities positive and ids distinct; with distinct ids the id is then gone. */
  lemma RemoveByIdInvariants(cart: seq<CartLine>, id: int)
    ensures QuantitiesPositive(cart) ==> QuantitiesPositive(RemoveById(cart, id))
    ensures NamesDistinct(cart) ==> NamesDistinct(RemoveById(cart, id))
    ensures IdsDistinct(cart) ==> IdsDistinct(RemoveById(cart, id)) && IndexOfId(RemoveById(cart, id), id) == -1
  {
    if IndexOfId(cart, id) >= 0 {
      var i := IndexOfId(cart, id);
      var r := RemoveById(cart, id);
      forall k | 0 <= k < |r|
        ensures r[k] == cart[if k < i then k else k + 1]
      {
        RemoveByIdKeepsOrder(cart, id, k);
      }
    }
  }

  // ----- updateQuantity -----

  /** `updateQuantity` keeps every quantity at least 1, whatever integer it is given. */
  lemma UpdateQuantityInvariants(cart: seq<CartLine>, id: int, quantity: int)
    ensures QuantitiesPositive(cart) ==> QuantitiesPositive(UpdateQuantity(cart, id, quantity))
    ensures NamesDistinct(cart) ==> NamesDistinct(UpdateQuantity(cart, id, quantity))
    ensures IdsDistinct(cart) ==> IdsDistinct(UpdateQuantity(cart, id, quantity))
  {
    var i := IndexOfId(cart, id);
    if i >= 0 && quantity <= 0 {
      RemoveByIdInvariants(cart, id);
    } else if i >= 0 {
      var r := UpdateQuantity(cart, id, quantity);
      assert r == cart[i := cart[i].(quantity := quantity)];
      assert forall k :: 0 <= k < |r| ==> r[k].name == cart[k].name && r[k].id == cart[k].id;
    }
  }

  /** Setting a positive quantity moves the item count by the difference and the total by price times it. */
  lemma UpdateQuantityTotals(cart: seq<CartLine>, id: int, quantity: int)
    requires IndexOfId(cart, id) >= 0 && quantity > 0
    ensures var i := IndexOfId(cart, id);
      && TotalItems(UpdateQuantity(cart, id, quantity)) == TotalItems(cart) - cart[i].quantity + quantity
      && Total(UpdateQuantity(cart, id, quantity)) == Total(cart) + cart[i].price * (quantity - cart[i].quantity)
  {
    var i := IndexOfId(cart, id);
    SumUpdate(LineTotal, cart, i, cart[i].(quantity := quantity));
    SumUpdate(Quantity, cart, i, cart[i].(quantity := quantity));
    LineTotalWithQuantity(cart[i], quantity);
  }

  /** Adding "Speaker" at 500 twice gives one line of quantity 2, total 1000 and 2 items. */
  lemma SpeakerScenario(id1: int, id2: int)
    ensures var c := AddLine(AddLine([], id1, "Speaker", 500, None), id2, "Speaker", 500, None);
      && c == [CartLine(id1, "Speaker", 500, None, 2)]
      && Total(c) == 1000 && TotalItems(c) == 2
  {
    var c1 := AddLine([], id1, "Speaker", 500, None);
    assert c1 == [CartLine(id1, "Speaker", 500, None, 1)];
    assert IndexOfName(c1, "Speaker") == 0;
    var c := AddLine(c1, id2, "Speaker", 500, None);
    assert c[..0] == [];
    assert SumOf(LineTotal, c) == LineTotal(c[0]);
    assert SumOf(Quantity, c) == c[0].quantity;
  }
}
