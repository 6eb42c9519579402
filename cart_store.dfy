/**
 The cart provider as a state holder: the held cart (`cart`, what `setCart` replaces)
 and a ghost snapshot of what the storage key holds (`stored`, what
 `localStorage.setItem` writes). Each mutation takes the lookup answers as inputs and
 follows the source's steps in order; its postcondition ties the outcome and the new
 state to the transition function of the same name.
 */
module CartStore {
  import opened CartItems
  import opened CartTransitions

  class CartProvider {
    var cart: seq<LineItem>
    ghost var stored: Option<seq<LineItem>>

    /** Hydration at start: the stored cart when the key holds one, otherwise empty. */
    constructor (storedCart: Option<seq<LineItem>>)
      ensures stored == storedCart
      ensures cart == (if storedCart.Some? then storedCart.value else [])
    {
      cart := if storedCart.Some? then storedCart.value else [];
      stored := storedCart;
    }

    method AddProduct(productId: int, stock: Option<int>, product: Option<Product>) returns (outcome: Outcome)
      modifies this
      ensures Transition(outcome, cart, stored) == AddProductSpec(old(cart), old(stored), productId, stock, product)
      ensures outcome == Ok ==> stored == Some(cart) && |cart| == |old(cart)| + 1
      ensures outcome != Ok ==> stored == old(stored)
    {
      // The copy shares its entries with the held cart; the entry is looked up in the held cart.
      var cartItems := cart;
      var item := FindFirst(cart, productId);
      if stock.None? {
        return LookupFailed;
      }
      var cartQuantity := if item.Some? then cart[item.value].amount else 0;
      if cartQuantity >= stock.value {
        return OutOfStock;
      }
      if item.Some? {
        // The bump writes the held cart's own entry, which the copy shares.
        var i := item.value;
        var bumped := cart[i].amount + 1;
        cartItems := SetAmountAt(cartItems, i, bumped);
        cart := SetAmountAt(cart, i, bumped);
      }
      if product.None? {
        return LookupFailed;
      }
      cartItems := cartItems + [LineItem(product.value.id, 1, product.value.details)];
      cart := cartItems;
      stored := Some(cartItems);
      return Ok;
    }

    method RemoveProduct(productId: int) returns (outcome: Outcome)
      modifies this
      ensures Transition(outcome, cart, stored) == RemoveProductSpec(old(cart), old(stored), productId)
      ensures outcome == Ok ==> stored == Some(cart) && |cart| == |old(cart)|
      ensures outcome != Ok ==> cart == old(cart) && stored == old(stored)
    {
      var cartItems := cart;
      var item := FindFirst(cart, productId);
      if item.None? {
        return NotFound;
      }
      // Zeroing writes the held cart's own entry, which the copy shares.
      cartItems := SetAmountAt(cartItems, item.value, 0);
      cart := cartItems;
      stored := Some(cartItems);
      return Ok;
    }

    method UpdateProductAmount(productId: int, amount: int, stock: Option<int>) returns (outcome: Outcome)
      modifies this
      ensures Transition(outcome, cart, stored)
              == UpdateProductAmountSpec(old(cart), old(stored), productId, amount, stock)
      ensures outcome == Ok ==> stored == Some(cart) && |cart| == |old(cart)|
      ensures outcome != Ok ==> cart == old(cart) && stored == old(stored)
    {
      if amount < 1 {
        return InvalidAmount;
      }
      if stock.None? {
        return LookupFailed;
      }
      if amount > stock.value {
        return OutOfStock;
      }
      var itemExists := FindFirst(cart, productId).Some?;
      if !itemExists {
        return NotFound;
      }
      var updatedCart := WithAmount(cart, productId, amount);
      cart := updatedCart;
      stored := Some(updatedCart);
      return Ok;
    }
  }

  /** A walk-through checked against the provider: add product 7 twice, set it to 5,
      add it again at stock 5, remove it. Adding twice yields two entries and removing
      zeroes the first, where a cart with unique ids and real removal would end empty. */
  method DesignScenario() returns (provider: CartProvider)
    ensures provider.cart == [LineItem(7, 0, Details("shoe", 1.0, "shoe.png")),
                              LineItem(7, 5, Details("shoe", 1.0, "shoe.png"))]
    ensures provider.stored == Some(provider.cart)
  {
    var d := Details("shoe", 1.0, "shoe.png");
    var p := Product(7, d);
    provider := new CartProvider(None);
    var o := provider.AddProduct(7, Some(5), Some(p));
    assert o == Ok && provider.cart == [LineItem(7, 1, d)];
    o := provider.AddProduct(7, Some(5), Some(p));
    assert o == Ok && provider.cart == [LineItem(7, 2, d), LineItem(7, 1, d)];
    o := provider.UpdateProductAmount(7, 5, Some(5));
    assert provider.cart[0].id == 7;
    assert o == Ok && provider.cart == [LineItem(7, 5, d), LineItem(7, 5, d)];
    o := provider.AddProduct(7, Some(5), Some(p));
    assert o == OutOfStock && provider.cart == [LineItem(7, 5, d), LineItem(7, 5, d)];
    o := provider.RemoveProduct(7);
    assert o == Ok;
  }
}
