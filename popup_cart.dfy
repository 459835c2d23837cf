/**
 * The popup cart of js/cart-popup.js: lines without ids kept under the
 * storage key "cart", the add-to-cart step that merges by name, the badge
 * count, and the totals and free-shipping rule the popup shows.
 *
 * The storage entry is an Option: None is a key that was never written.
 * Reading it yields the list itself; writing it is the `saved` result of
 * AddToCartWithPopup.
 */
module PopupCart {
  import opened Wrappers

  /** Storage key of the popup cart. */
  const StorageKey: string := "cart"

  /** Subtotal from which shipping is free. */
  const FreeShippingThreshold: int := 1000

  /** Shipping fee below the threshold. */
  const ShippingFee: int := 50

  /** What a product card hands to the add step: its name, parsed price and image. */
  datatype Product = Product(name: string, price: int, image: string)

  datatype PopupLine = PopupLine(name: string, price: int, image: string, quantity: int)

  /** `JSON.parse(localStorage.getItem(StorageKey)) || []`: an absent entry is the empty cart. */
  function LoadCart(entry: Option<seq<PopupLine>>): seq<PopupLine> {
    if entry.Some? then entry.value else []
  }

  function LineTotal(line: PopupLine): int {
    line.price * line.quantity
  }

  /** `cart.reduce((sum, item) => sum + item.price * item.quantity, 0)`, folded from the left. */
  function Subtotal(cart: seq<PopupLine>): int {
    if cart == [] then 0 else Subtotal(cart[..|cart| - 1]) + LineTotal(cart[|cart| - 1])
  }

  /** `cart.reduce((sum, item) => sum + item.quantity, 0)`, folded from the left. */
  function ItemCount(cart: seq<PopupLine>): int {
    if cart == [] then 0 else ItemCount(cart[..|cart| - 1]) + cart[|cart| - 1].quantity
  }

  predicate NamesDistinct(cart: seq<PopupLine>) {
    forall j, k :: 0 <= j < k < |cart| ==> cart[j].name != cart[k].name
  }

  /** `cart.findIndex(item => item.name === name)`: the first line with that name, or -1. */
  function FindIndexByName(cart: seq<PopupLine>, name: string): (r: int)
    ensures -1 <= r < |cart|
    ensures r >= 0 ==> cart[r].name == name && forall j :: 0 <= j < r ==> cart[j].name != name
    ensures r == -1 <==> forall j :: 0 <= j < |cart| ==> cart[j].name != name
  {
    if cart == [] then -1
    else if cart[0].name == name then 0
    else
      var r := FindIndexByName(cart[1..], name);
      if r == -1 then -1 else r + 1
  }

  /** Replacing one line changes the subtotal by the difference of the two line totals. */
  lemma {:induction false} SubtotalUpdate(cart: seq<PopupLine>, i: nat, line: PopupLine)
    requires i < |cart|
    ensures Subtotal(cart[i := line]) == Subtotal(cart) - LineTotal(cart[i]) + LineTotal(line)
  {
    var n := |cart| - 1;
    var c' := cart[i := line];
    if i == n {
      assert c'[..n] == cart[..n];
    } else {
      SubtotalUpdate(cart[..n], i, line);
      assert c'[..n] == cart[..n][i := line];
    }
  }

  /** Replacing one line changes the item count by the difference of the two quantities. */
  lemma {:induction false} ItemCountUpdate(cart: seq<PopupLine>, i: nat, line: PopupLine)
    requires i < |cart|
    ensures ItemCount(cart[i := line]) == ItemCount(cart) - cart[i].quantity + line.quantity
  {
    var n := |cart| - 1;
    var c' := cart[i := line];
    if i == n {
      assert c'[..n] == cart[..n];
    } else {
      ItemCountUpdate(cart[..n], i, line);
      assert c'[..n] == cart[..n][i := line];
    }
  }

  /** The list written back by the add step and the line shown as "just added". */
  datatype AddOutcome = AddOutcome(cart: seq<PopupLine>, justAdded: PopupLine)

  /** What `addToCartWithPopup` does to the loaded list, as a value. */
  function AddProduct(cart: seq<PopupLine>, product: Product): AddOutcome {
    var i := FindIndexByName(cart, product.name);
    if i > -1 then
      var c := cart[i := cart[i].(quantity := cart[i].quantity + 1)];
      AddOutcome(c, c[i])
    else
      var c := cart + [PopupLine(product.name, product.price, product.image, 1)];
      AddOutcome(c, c[|c| - 1])
  }

  /**
   * `addToCartWithPopup`: loads the stored cart, bumps the quantity of the
   * first line with the product's name or pushes a new line with quantity 1,
   * and returns the list written back to storage together with the line
   * handed to the popup as "just added".
   */
  method AddToCartWithPopup(entry: Option<seq<PopupLine>>, product: Product)
    returns (saved: seq<PopupLine>, justAdded: PopupLine)
    ensures AddOutcome(saved, justAdded) == AddProduct(LoadCart(entry), product)
  {
    var cart := LoadCart(entry);
    var existingIndex := FindIndexByName(cart, product.name);
    if existingIndex > -1 {
      var line := cart[existingIndex];
      cart := cart[existingIndex := line.(quantity := line.quantity + 1)];
    } else {
      cart := cart + [PopupLine(product.name, product.price, product.image, 1)];
    }
    saved := cart;
    justAdded := if existingIndex > -1 then cart[existingIndex] else cart[|cart| - 1];
  }

  /** A product whose name is present: only that line changes, by one unit, keeping its stored price and image. */
  lemma AddProductMerges(cart: seq<PopupLine>, product: Product, i: nat)
    requires i < |cart| && cart[i].name == product.name
    requires forall j :: 0 <= j < i ==> cart[j].name != product.name
    ensures var r := AddProduct(cart, product);
      && |r.cart| == |cart|
      && r.cart[i] == cart[i].(quantity := cart[i].quantity + 1)
      && (forall j :: 0 <= j < |cart| && j != i ==> r.cart[j] == cart[j])
      && r.justAdded == r.cart[i]
  {
    assert FindIndexByName(cart, product.name) == i;
  }

  /** A product whose name is new: exactly one line is pushed at the end, earlier lines untouched. */
  lemma AddProductAppends(cart: seq<PopupLine>, product: Product)
    requires forall j :: 0 <= j < |cart| ==> cart[j].name != product.name
    ensures var r := AddProduct(cart, product);
      && |r.cart| == |cart| + 1
      && r.cart[..|cart|] == cart
      && r.cart[|cart|] == PopupLine(product.name, product.price, product.image, 1)
      && r.justAdded == r.cart[|cart|]
  {
  }

  /**
   * Either way the badge count grows by exactly 1, the subtotal grows by the
   * price stored on the touched line (the product's price only when the line
   * is new), and the "just added" line carries the product's name.
   */
  lemma AddProductAmounts(cart: seq<PopupLine>, product: Product)
    ensures var r := AddProduct(cart, product);
      && ItemCount(r.cart) == ItemCount(cart) + 1
      && Subtotal(r.cart) == Subtotal(cart) + r.justAdded.price
      && r.justAdded.name == product.name
      && r.justAdded in r.cart
    ensures var i := FindIndexByName(cart, product.name);
      AddProduct(cart, product).justAdded.price == if i >= 0 then cart[i].price else product.price
  {
    var i := FindIndexByName(cart, product.name);
    if i > -1 {
      IncrementLine(cart, i);
    } else {
      AppendLine(cart, PopupLine(product.name, product.price, product.image, 1));
    }
  }

  /** Names that were pairwise distinct stay so, and the popup then shows a non-empty cart. */
  lemma AddProductKeepsNamesDistinct(cart: seq<PopupLine>, product: Product)
    ensures NamesDistinct(cart) ==> NamesDistinct(AddProduct(cart, product).cart)
    ensures var r := AddProduct(cart, product);
      UpdateCartPopupContent(Some(r.cart), Some(r.justAdded)).Filled?
  {
    var i := FindIndexByName(cart, product.name);
    if i > -1 {
      IncrementLine(cart, i);
    } else {
      AppendLine(cart, PopupLine(product.name, product.price, product.image, 1));
    }
    NonEmptyCartIsShown(AddProduct(cart, product).cart, Some(AddProduct(cart, product).justAdded));
  }

  /** One more unit on line i: the count grows by 1 and the subtotal by that line's stored price. */
  lemma IncrementLine(cart: seq<PopupLine>, i: nat)
    requires i < |cart|
    ensures var c := cart[i := cart[i].(quantity := cart[i].quantity + 1)];
      && ItemCount(c) == ItemCount(cart) + 1
      && Subtotal(c) == Subtotal(cart) + cart[i].price
      && (NamesDistinct(cart) ==> NamesDistinct(c))
      && c[i] in c
  {
    var line := cart[i].(quantity := cart[i].quantity + 1);
    SubtotalUpdate(cart, i, line);
    ItemCountUpdate(cart, i, line);
    assert LineTotal(line) == cart[i].price * cart[i].quantity + cart[i].price;
  }

  /** Appending a line with a new name adds its amounts and keeps names pairwise distinct. */
  lemma AppendLine(cart: seq<PopupLine>, line: PopupLine)
    requires forall j :: 0 <= j < |cart| ==> cart[j].name != line.name
    ensures Subtotal(cart + [line]) == Subtotal(cart) + LineTotal(line)
    ensures ItemCount(cart + [line]) == ItemCount(cart) + line.quantity
    ensures NamesDistinct(cart) ==> NamesDistinct(cart + [line])
    ensures line in cart + [line]
  {
    assert (cart + [line])[..|cart|] == cart;
    assert (cart + [line])[|cart|] == line;
  }

  /** A stored cart with at least one line is shown with its totals, never as the empty state. */
  lemma NonEmptyCartIsShown(cart: seq<PopupLine>, justAdded: Option<PopupLine>)
    requires cart != []
    ensures UpdateCartPopupContent(Some(cart), justAdded).Filled?
  {
  }

  /** What the popup shows: the empty state, or the just-added line, the totals and the shipping rule. */
  datatype PopupView =
    | EmptyState
    | Filled(justAdded: Option<PopupLine>, lineCount: nat, subtotal: int, remaining: int,
             freeShipping: bool, shippingFee: int, tax: real, total: real, progress: real)

  /** `Math.min((subtotal / threshold) * 100, 100)`, over exact reals. */
  function Progress(subtotal: int): (p: real)
    ensures p <= 100.0
    ensures p == 100.0 <==> subtotal >= FreeShippingThreshold
  {
    var raw := (subtotal as real / FreeShippingThreshold as real) * 100.0;
    if raw < 100.0 then raw else 100.0
  }

  /**
   * The arithmetic of `updateCartPopupContent`. The "free shipping" banner
   * follows `remaining <= 0`, the shipping row follows
   * `subtotal >= threshold`; the two conditions always agree.
   */
  function UpdateCartPopupContent(entry: Option<seq<PopupLine>>, justAdded: Option<PopupLine>): (v: PopupView)
    ensures v.EmptyState? <==> LoadCart(entry) == []
    ensures v.Filled? ==>
      && v.justAdded == justAdded
      && v.lineCount == |LoadCart(entry)|
      && v.subtotal == Subtotal(LoadCart(entry))
      && v.remaining == FreeShippingThreshold - v.subtotal
    ensures v.Filled? ==>
      && (v.freeShipping <==> v.subtotal >= FreeShippingThreshold)
      && (v.shippingFee == 0 <==> v.freeShipping)
      && (v.shippingFee == 0 || v.shippingFee == ShippingFee)
      && (v.progress == 100.0 <==> v.freeShipping)
    ensures v.Filled? ==> v.tax == v.subtotal as real * 0.20 && v.progress == Progress(v.subtotal)
    ensures v.Filled? ==> v.total == v.subtotal as real * 1.2 + v.shippingFee as real
  {
    var cart := LoadCart(entry);
    if |cart| == 0 then EmptyState
    else
      var subtotal := Subtotal(cart);
      var remaining := FreeShippingThreshold - subtotal;
      var fee := if subtotal >= FreeShippingThreshold then 0 else ShippingFee;
      var tax := subtotal as real * 0.20;
      Filled(justAdded, |cart|, subtotal, remaining, remaining <= 0, fee, tax,
             subtotal as real + tax + fee as real, Progress(subtotal))
  }

  /** `updateHeaderCartCount`: the badge shows the sum of the stored quantities. */
  function UpdateHeaderCartCount(entry: Option<seq<PopupLine>>): (count: int)
    ensures entry.None? ==> count == 0
  {
    ItemCount(LoadCart(entry))
  }

  predicate QuantitiesPositive(cart: seq<PopupLine>) {
    forall i :: 0 <= i < |cart| ==> cart[i].quantity >= 1
  }

  /** With every quantity at least 1, the badge is at least the number of lines the popup lists. */
  lemma {:induction false} ItemCountCoversLines(cart: seq<PopupLine>)
    requires QuantitiesPositive(cart)
    ensures ItemCount(cart) >= |cart|
    ensures cart != [] ==> ItemCount(cart) > 0
  {
    if cart != [] {
      ItemCountCoversLines(cart[..|cart| - 1]);
    }
  }

  /** An absent entry is an empty cart: the popup takes the empty-state branch and the badge shows 0. */
  lemma AbsentEntryIsEmpty(justAdded: Option<PopupLine>)
    ensures UpdateCartPopupContent(None, justAdded) == EmptyState
    ensures UpdateHeaderCartCount(None) == 0
  {
  }

  /** Subtotal 1000 is shipped free; subtotal 400 leaves 600 to go and fills 40% of the bar. */
  lemma ShippingScenarios(a: PopupLine, b: PopupLine)
    requires a.price == 500 && a.quantity == 2
    requires b.price == 400 && b.quantity == 1
    ensures var v := UpdateCartPopupContent(Some([a]), None);
      v.Filled? && v.remaining <= 0 && v.freeShipping && v.shippingFee == 0
    ensures var v := UpdateCartPopupContent(Some([b]), None);
      v.Filled? && v.remaining == 600 && !v.freeShipping && v.shippingFee == 50 && v.progress == 40.0
  {
    assert [a][..0] == [] && [b][..0] == [];
    assert Subtotal([a]) == 1000 && Subtotal([b]) == 400;
  }
}
