/**
 * `ShoppingCartSystem` of js/shopping-cart-tr.js: an object whose `cart`
 * field its methods change in place, mirrored to the storage key "jblCart"
 * by `saveCart` after every change. `storage` is that entry (None: never
 * written). Every method keeps `Valid()`: reading the entry back gives the
 * cart in memory.
 *
 * `confirm()` answers are the `confirmed` arguments; `Date.now()` ids are
 * the `id` argument of AddToCart.
 */
module ControllerCart {
  import opened Wrappers
  import opened ControllerLines
  import opened ControllerCsv

  /** Storage key of the controller cart. */
  const StorageKey: string := "jblCart"

  /** `loadCart`: the entry under StorageKey, `saved ? JSON.parse(saved) : []`. */
  function LoadCart(saved: Option<seq<CartLine>>): seq<CartLine> {
    if saved.Some? then saved.value else []
  }

  class ShoppingCartSystem {
    var cart: seq<CartLine>
    var storage: Option<seq<CartLine>>

    /** The stored entry reads back as the cart in memory. */
    ghost predicate Valid()
      reads this
    {
      LoadCart(storage) == cart
    }

    /** Loads the cart from the entry; nothing is written. */
    constructor (stored: Option<seq<CartLine>>)
      ensures Valid()
      ensures storage == stored && cart == LoadCart(stored)
    {
      storage := stored;
      cart := LoadCart(stored);
    }

    /** `addToCart`: merge by name or append a new line with the given id, then save. */
    method AddToCart(id: int, name: string, price: int, image: Option<string>)
      requires Valid()
      modifies this
      ensures Valid() && storage == Some(cart)
      ensures cart == AddLine(old(cart), id, name, price, image)
      ensures TotalItems(cart) == TotalItems(old(cart)) + 1
      ensures QuantitiesPositive(old(cart)) ==> QuantitiesPositive(cart)
      ensures NamesDistinct(old(cart)) ==> NamesDistinct(cart)
    {
      var existing := IndexOfName(cart, name);
      if existing >= 0 {
        cart := cart[existing := cart[existing].(quantity := cart[existing].quantity + 1)];
      } else {
        cart := cart + [CartLine(id, name, price, image, 1)];
      }
      storage := Some(cart);
      AddLineTotals(old(cart), id, name, price, image);
      AddLineInvariants(old(cart), id, name, price, image);
    }

    /** `removeFromCart`: `splice` out the first line with that id and save; nothing when absent. */
    method RemoveFromCart(productId: int)
      requires Valid()
      modifies this
      ensures Valid()
      ensures cart == RemoveById(old(cart), productId)
      ensures storage == if IndexOfId(old(cart), productId) >= 0 then Some(cart) else old(storage)
      ensures QuantitiesPositive(old(cart)) ==> QuantitiesPositive(cart)
    {
      var index := IndexOfId(cart, productId);
      if index > -1 {
        cart := cart[..index] + cart[index + 1..];
        storage := Some(cart);
      }
      RemoveByIdInvariants(old(cart), productId);
    }

    /** `updateQuantity`: unknown id does nothing, `quantity <= 0` removes, otherwise sets and saves. */
    method UpdateQuantity(productId: int, quantity: int)
      requires Valid()
      modifies this
      ensures Valid()
      ensures cart == ControllerLines.UpdateQuantity(old(cart), productId, quantity)
      ensures storage == if IndexOfId(old(cart), productId) >= 0 then Some(cart) else old(storage)
      ensures QuantitiesPositive(old(cart)) ==> QuantitiesPositive(cart)
    {
      var index := IndexOfId(cart, productId);
      if index >= 0 {
        if quantity <= 0 {
          RemoveFromCart(productId);
        } else {
          cart := cart[index := cart[index].(quantity := quantity)];
          storage := Some(cart);
        }
      }
      UpdateQuantityInvariants(old(cart), productId, quantity);
    }

    /** `clearCart`: an empty cart stays as it is; otherwise it is emptied and saved only when confirmed. */
    method ClearCart(confirmed: bool)
      requires Valid()
      modifies this
      ensures Valid()
      ensures old(cart) == [] ==> cart == old(cart) && storage == old(storage)
      ensures old(cart) != [] && confirmed ==> cart == [] && storage == Some([])
      ensures old(cart) != [] && !confirmed ==> cart == old(cart) && storage == old(storage)
    {
      if |cart| == 0 {
        return;
      }
      if confirmed {
        cart := [];
        storage := Some(cart);
      }
    }

    /**
     * `checkout`: nothing for an empty cart; otherwise the quoted total is
     * `getTotal() + 50`, and a confirmed checkout empties and saves the cart.
     */
    method Checkout(confirmed: bool) returns (quote: Option<CheckoutQuote>)
      requires Valid()
      modifies this
      ensures Valid()
      ensures quote == QuoteOf(old(cart))
      ensures old(cart) == [] ==> quote.None? && cart == old(cart) && storage == old(storage)
      ensures old(cart) != [] && confirmed ==> cart == [] && storage == Some([])
      ensures old(cart) != [] && !confirmed ==> cart == old(cart) && storage == old(storage)
    {
      if |cart| == 0 {
        quote := None;
        return;
      }
      var total := Total(cart) + FlatShipping;
      quote := Some(CheckoutQuote(TotalItems(cart), Total(cart), total));
      if confirmed {
        cart := [];
        storage := Some(cart);
      }
    }

    /** The text of `downloadCartAsCSV`, built row by row. */
    method DownloadCartAsCsv() returns (csv: string)
      ensures csv == CsvText(cart)
    {
      csv := Header;
      var i := 0;
      while i < |cart|
        invariant 0 <= i <= |cart|
        invariant csv == Header + Rows(cart[..i])
      {
        HeaderRowsStep(cart, i);
        csv := csv + Row(cart[i]);
        i := i + 1;
      }
      assert cart[..|cart|] == cart;
      csv := csv + "\n" + TotalRow(Total(cart));
    }
  }
}
