/**
 The three cart mutations of the cart hook as pure transitions from (held cart,
 stored snapshot) to (outcome, held cart, stored snapshot). The stock and product
 lookups are inputs: `None` is a lookup that failed, `Some(x)` one that answered x.
 The stored snapshot is `None` when the storage key held no cart at start-up and
 nothing has been stored since.
 */
module CartTransitions {
  import opened CartItems

  /** What an operation reports; the source shows it as a notification. */
  datatype Outcome = Ok | OutOfStock | NotFound | InvalidAmount | LookupFailed

  datatype Transition = Transition(outcome: Outcome, cart: seq<LineItem>, stored: Option<seq<LineItem>>)

  /** addProduct: gate on the first entry's amount against stock, bump that entry in
      place, then fetch the product and append it with amount 1. The bumped entry is
      the held cart's own, so a failed product fetch leaves the bump in the held cart. */
  function AddProductSpec(cart: seq<LineItem>, stored: Option<seq<LineItem>>, productId: int,
                          stock: Option<int>, product: Option<Product>): (t: Transition)
    ensures t.outcome == Ok || t.outcome == OutOfStock || t.outcome == LookupFailed
    ensures t.outcome == Ok ==> t.stored == Some(t.cart) && |t.cart| == |cart| + 1
    ensures t.outcome == Ok ==>
              product.Some? && t.cart[|cart|] == LineItem(product.value.id, 1, product.value.details)
    ensures t.outcome != Ok ==> t.stored == stored
    ensures t.outcome == OutOfStock <==> stock.Some? && CartQuantity(cart, productId) >= stock.value
    ensures t.outcome == OutOfStock || stock.None? ==> t.cart == cart
  {
    if stock.None? then Transition(LookupFailed, cart, stored)
    else if CartQuantity(cart, productId) >= stock.value then Transition(OutOfStock, cart, stored)
    else
      var bumped := match FindFirst(cart, productId)
        case Some(i) => SetAmountAt(cart, i, cart[i].amount + 1)
        case None => cart;
      if product.None? then Transition(LookupFailed, bumped, stored)
      else
        var next := bumped + [LineItem(product.value.id, 1, product.value.details)];
        Transition(Ok, next, Some(next))
  }

  /** removeProduct: zero the amount of the first entry carrying the id; the entry stays. */
  function RemoveProductSpec(cart: seq<LineItem>, stored: Option<seq<LineItem>>, productId: int): (t: Transition)
    ensures t.outcome == Ok || t.outcome == NotFound
    ensures t.outcome == NotFound <==> !HasItem(cart, productId)
    ensures t.outcome == Ok ==> t.stored == Some(t.cart) && |t.cart| == |cart|
    ensures t.outcome != Ok ==> t.stored == stored && t.cart == cart
  {
    match FindFirst(cart, productId)
    case None => Transition(NotFound, cart, stored)
    case Some(i) =>
      var next := SetAmountAt(cart, i, 0);
      Transition(Ok, next, Some(next))
  }

  /** updateProductAmount: reject an amount below 1, then a failed or short stock
      lookup, then an id not in the cart; otherwise set every matching entry's amount. */
  function UpdateProductAmountSpec(cart: seq<LineItem>, stored: Option<seq<LineItem>>, productId: int,
                                   amount: int, stock: Option<int>): (t: Transition)
    ensures t.outcome == Ok ==> t.stored == Some(t.cart) && |t.cart| == |cart|
    ensures t.outcome != Ok ==> t.stored == stored && t.cart == cart
    ensures t.outcome == Ok <==>
              1 <= amount && stock.Some? && amount <= stock.value && HasItem(cart, productId)
  {
    if amount < 1 then Transition(InvalidAmount, cart, stored)
    else if stock.None? then Transition(LookupFailed, cart, stored)
    else if amount > stock.value then Transition(OutOfStock, cart, stored)
    else if !HasItem(cart, productId) then Transition(NotFound, cart, stored)
    else
      var next := WithAmount(cart, productId, amount);
      Transition(Ok, next, Some(next))
  }

  // ---------------------------------------------------------------------------
  // addProduct

  /** A failed stock lookup happens before any change. */
  lemma AddStockLookupFailed(cart: seq<LineItem>, stored: Option<seq<LineItem>>, productId: int,
                             product: Option<Product>)
    ensures AddProductSpec(cart, stored, productId, None, product) == Transition(LookupFailed, cart, stored)
  {
  }

  /** With n the first matching entry's amount (0 if none), n >= stock rejects and changes nothing. */
  lemma AddOutOfStock(cart: seq<LineItem>, stored: Option<seq<LineItem>>, productId: int,
                      stock: int, product: Option<Product>)
    requires CartQuantity(cart, productId) >= stock
    ensures AddProductSpec(cart, stored, productId, Some(stock), product) == Transition(OutOfStock, cart, stored)
  {
  }

  /** A product not yet in the cart, in stock and fetched, is appended once with amount 1. */
  lemma AddNewProduct(cart: seq<LineItem>, stored: Option<seq<LineItem>>, productId: int,
                      stock: int, p: Product)
    requires !HasItem(cart, productId) && stock > 0
    ensures AddProductSpec(cart, stored, productId, Some(stock), Some(p))
            == Transition(Ok, cart + [LineItem(p.id, 1, p.details)], Some(cart + [LineItem(p.id, 1, p.details)]))
  {
  }

  /** A product present with amount n < stock: the first matching entry becomes n+1,
      the other entries stay where they were, and a new amount-1 entry is appended. */
  lemma AddPresentProduct(cart: seq<LineItem>, stored: Option<seq<LineItem>>, productId: int,
                          stock: int, p: Product, i: nat)
    requires FindFirst(cart, productId) == Some(i) && cart[i].amount < stock
    ensures var t := AddProductSpec(cart, stored, productId, Some(stock), Some(p));
      && t.outcome == Ok
      && |t.cart| == |cart| + 1
      && t.cart[i] == cart[i].(amount := cart[i].amount + 1)
      && (forall j :: 0 <= j < |cart| && j != i ==> t.cart[j] == cart[j])
      && t.cart[|cart|] == LineItem(p.id, 1, p.details)
      && t.stored == Some(t.cart)
  {
  }

  /** A failed product fetch after the stock check reports LookupFailed and writes
      nothing; for an id not yet in the cart the held cart is also unchanged. */
  lemma AddProductLookupFailed(cart: seq<LineItem>, stored: Option<seq<LineItem>>, productId: int,
                               stock: int)
    requires CartQuantity(cart, productId) < stock
    ensures var t := AddProductSpec(cart, stored, productId, Some(stock), None);
      t.outcome == LookupFailed && t.stored == stored
    ensures !HasItem(cart, productId) ==>
              AddProductSpec(cart, stored, productId, Some(stock), None) == Transition(LookupFailed, cart, stored)
  {
  }

  /** For an id already in the cart, a failed product fetch keeps the bump of the first
      matching entry in the held cart but writes nothing, so a cart that matched its
      snapshot no longer does. */
  lemma AddPresentLookupFailed(cart: seq<LineItem>, stored: Option<seq<LineItem>>, productId: int,
                               stock: int, i: nat)
    requires FindFirst(cart, productId) == Some(i) && cart[i].amount < stock
    ensures var t := AddProductSpec(cart, stored, productId, Some(stock), None);
      && t.outcome == LookupFailed
      && t.cart == SetAmountAt(cart, i, cart[i].amount + 1)
      && t.stored == stored
      && (stored == Some(cart) ==> t.stored != Some(t.cart))
  {
    var t := AddProductSpec(cart, stored, productId, Some(stock), None);
    assert t.cart[i].amount != cart[i].amount;
  }

  /** Each successful add counts one more entry for the fetched product's id and keeps
      the count of every other id. */
  lemma {:induction false} AddCounts(cart: seq<LineItem>, stored: Option<seq<LineItem>>, productId: int,
                                     stock: Option<int>, product: Option<Product>, id: int)
    requires AddProductSpec(cart, stored, productId, stock, product).outcome == Ok
    ensures CountId(AddProductSpec(cart, stored, productId, stock, product).cart, id)
            == CountId(cart, id) + (if product.value.id == id then 1 else 0)
  {
    var bumped := match FindFirst(cart, productId)
      case Some(i) => SetAmountAt(cart, i, cart[i].amount + 1)
      case None => cart;
    CountSameIds(bumped, cart, id);
    CountAppend(bumped, LineItem(product.value.id, 1, product.value.details), id);
  }

  /** Adding a product already in the cart, when the lookup answers with that same id,
      leaves two entries carrying it: the cart no longer has unique ids. */
  lemma AddPresentDuplicates(cart: seq<LineItem>, stored: Option<seq<LineItem>>, productId: int,
                             stock: int, p: Product)
    requires HasItem(cart, productId) && CartQuantity(cart, productId) < stock && p.id == productId
    ensures var t := AddProductSpec(cart, stored, productId, Some(stock), Some(p));
      t.outcome == Ok && CountId(t.cart, productId) >= 2 && !UniqueIds(t.cart)
  {
    var t := AddProductSpec(cart, stored, productId, Some(stock), Some(p));
    AddCounts(cart, stored, productId, Some(stock), Some(p), productId);
    CountPositive(cart, productId);
    var i := FindFirst(cart, productId).value;
    assert t.cart[i].id == t.cart[|cart|].id;
  }

  // ---------------------------------------------------------------------------
  // removeProduct

  /** Removing an id not in the cart reports not-found and changes nothing. */
  lemma RemoveAbsent(cart: seq<LineItem>, stored: Option<seq<LineItem>>, productId: int)
    requires !HasItem(cart, productId)
    ensures RemoveProductSpec(cart, stored, productId) == Transition(NotFound, cart, stored)
  {
  }

  /** Removing a present id keeps length and order, zeroes the first matching entry,
      and leaves every other entry untouched. */
  lemma RemovePresent(cart: seq<LineItem>, stored: Option<seq<LineItem>>, productId: int, i: nat)
    requires FindFirst(cart, productId) == Some(i)
    ensures var t := RemoveProductSpec(cart, stored, productId);
      && t.outcome == Ok
      && |t.cart| == |cart|
      && t.cart[i] == cart[i].(amount := 0)
      && (forall j :: 0 <= j < |cart| && j != i ==> t.cart[j] == cart[j])
      && t.stored == Some(t.cart)
  {
  }

  /** A removed product is still in the cart, with amount 0, and as many entries carry its id. */
  lemma RemoveKeepsEntry(cart: seq<LineItem>, stored: Option<seq<LineItem>>, productId: int)
    requires HasItem(cart, productId)
    ensures var t := RemoveProductSpec(cart, stored, productId);
      && HasItem(t.cart, productId)
      && CartQuantity(t.cart, productId) == 0
      && CountId(t.cart, productId) == CountId(cart, productId)
  {
    var t := RemoveProductSpec(cart, stored, productId);
    var i := FindFirst(cart, productId).value;
    assert t.cart[i].id == productId;
    CountSameIds(t.cart, cart, productId);
  }

  // ---------------------------------------------------------------------------
  // updateProductAmount

  /** An amount below 1 is rejected before stock is consulted, whatever the stock lookup gives. */
  lemma UpdateInvalidAmount(cart: seq<LineItem>, stored: Option<seq<LineItem>>, productId: int,
                            amount: int, stock: Option<int>)
    requires amount < 1
    ensures UpdateProductAmountSpec(cart, stored, productId, amount, stock)
            == Transition(InvalidAmount, cart, stored)
  {
  }

  /** A valid amount with a failed stock lookup, or above stock, is rejected whether or
      not the id is in the cart. */
  lemma UpdateStockRejects(cart: seq<LineItem>, stored: Option<seq<LineItem>>, productId: int,
                           amount: int, stock: Option<int>)
    requires amount >= 1
    ensures stock.None? ==> UpdateProductAmountSpec(cart, stored, productId, amount, stock)
                            == Transition(LookupFailed, cart, stored)
    ensures stock.Some? && amount > stock.value ==>
              UpdateProductAmountSpec(cart, stored, productId, amount, stock)
              == Transition(OutOfStock, cart, stored)
  {
  }

  /** A valid amount within stock for an id not in the cart is rejected last. */
  lemma UpdateAbsent(cart: seq<LineItem>, stored: Option<seq<LineItem>>, productId: int,
                     amount: int, stock: int)
    requires 1 <= amount <= stock && !HasItem(cart, productId)
    ensures UpdateProductAmountSpec(cart, stored, productId, amount, Some(stock))
            == Transition(NotFound, cart, stored)
  {
  }

  /** A successful update gives every matching entry the new amount with its other
      fields kept, leaves every other entry identical, and keeps length and order. */
  lemma UpdateSucceeds(cart: seq<LineItem>, stored: Option<seq<LineItem>>, productId: int,
                       amount: int, stock: int)
    requires 1 <= amount <= stock && HasItem(cart, productId)
    ensures var t := UpdateProductAmountSpec(cart, stored, productId, amount, Some(stock));
      && t.outcome == Ok
      && |t.cart| == |cart|
      && (forall i :: 0 <= i < |cart| && cart[i].id == productId ==> t.cart[i] == cart[i].(amount := amount))
      && (forall i :: 0 <= i < |cart| && cart[i].id != productId ==> t.cart[i] == cart[i])
      && t.stored == Some(t.cart)
  {
  }

  /** Repeating a successful update with the same stock answer changes nothing more. */
  lemma UpdateIdempotent(cart: seq<LineItem>, stored: Option<seq<LineItem>>, productId: int,
                         amount: int, stock: Option<int>)
    requires UpdateProductAmountSpec(cart, stored, productId, amount, stock).outcome == Ok
    ensures var t := UpdateProductAmountSpec(cart, stored, productId, amount, stock);
      UpdateProductAmountSpec(t.cart, t.stored, productId, amount, stock) == t
  {
    var t := UpdateProductAmountSpec(cart, stored, productId, amount, stock);
    var k :| 0 <= k < |cart| && cart[k].id == productId;
    assert t.cart[k].id == productId;
    var again := WithAmount(t.cart, productId, amount);
    assert again == t.cart by {
      forall i | 0 <= i < |cart| ensures again[i] == t.cart[i] {
      }
    }
  }

  // ---------------------------------------------------------------------------
  // Invariants across all three operations

  /** No operation introduces a negative amount into a cart that had none. */
  lemma NonNegativePreserved(cart: seq<LineItem>, stored: Option<seq<LineItem>>, productId: int,
                             amount: int, stock: Option<int>, product: Option<Product>)
    requires NonNegativeAmounts(cart)
    ensures NonNegativeAmounts(AddProductSpec(cart, stored, productId, stock, product).cart)
    ensures NonNegativeAmounts(RemoveProductSpec(cart, stored, productId).cart)
    ensures NonNegativeAmounts(UpdateProductAmountSpec(cart, stored, productId, amount, stock).cart)
  {
  }
}
