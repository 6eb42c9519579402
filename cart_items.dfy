/**
 The values a cart is made of: line items as the cart hook holds them, the product
 record the product lookup answers with, and the sequence operations the three cart
 mutations are built from (`find`, `some`, `map` and an in-place amount write).
 */
module CartItems {

  datatype Option<T> = None | Some(value: T)

  /** The product attributes copied into a line item (title, price, image). */
  datatype Details = Details(title: string, price: real, image: string)

  /** What the product lookup answers for one product. */
  datatype Product = Product(id: int, details: Details)

  /** One entry of the cart: a product record with an amount. */
  datatype LineItem = LineItem(id: int, amount: int, details: Details)

  /** Some entry of `cart` carries `id` (the array `some` of the source). */
  predicate HasItem(cart: seq<LineItem>, id: int): (b: bool)
    ensures b <==> exists item :: item in cart && item.id == id
  {
    exists i :: 0 <= i < |cart| && cart[i].id == id
  }

  /** Index of the first entry carrying `id` (the array `find` of the source). */
  function FindFirst(cart: seq<LineItem>, id: int): (r: Option<nat>)
    ensures r.Some? ==> r.value < |cart| && cart[r.value].id == id
    ensures r.Some? ==> forall j :: 0 <= j < r.value ==> cart[j].id != id
    ensures r.None? <==> !HasItem(cart, id)
  {
    if |cart| == 0 then None
    else if cart[0].id == id then Some(0)
    else match FindFirst(cart[1..], id)
      case None => None
      case Some(k) => Some(k + 1)
  }

  /** Amount of the first entry carrying `id`, or 0 when there is none. */
  function CartQuantity(cart: seq<LineItem>, id: int): (n: int)
    ensures !HasItem(cart, id) ==> n == 0
    ensures HasItem(cart, id) ==>
              exists i :: 0 <= i < |cart| && cart[i].id == id && n == cart[i].amount
                          && forall j :: 0 <= j < i ==> cart[j].id != id
  {
    match FindFirst(cart, id)
    case Some(i) => cart[i].amount
    case None => 0
  }

  /** The cart after writing `amount` into the entry at index `i` in place. */
  function SetAmountAt(cart: seq<LineItem>, i: nat, amount: int): (r: seq<LineItem>)
    requires i < |cart|
    ensures |r| == |cart| && r[i].id == cart[i].id && r[i].details == cart[i].details
    ensures r[i].amount == amount
    ensures forall j :: 0 <= j < |cart| && j != i ==> r[j] == cart[j]
  {
    cart[i := cart[i].(amount := amount)]
  }

  /** The cart after every entry carrying `id` is copied with the new `amount`
      (the array `map` of the source). */
  function WithAmount(cart: seq<LineItem>, id: int, amount: int): (r: seq<LineItem>)
    ensures |r| == |cart|
    ensures forall i :: 0 <= i < |cart| ==> r[i].id == cart[i].id && r[i].details == cart[i].details
    ensures forall i :: 0 <= i < |cart| && cart[i].id == id ==> r[i].amount == amount
    ensures forall i :: 0 <= i < |cart| && cart[i].id != id ==> r[i] == cart[i]
  {
    if cart == [] then []
    else [if cart[0].id == id then cart[0].(amount := amount) else cart[0]]
         + WithAmount(cart[1..], id, amount)
  }

  /** Number of entries carrying `id`. */
  function CountId(cart: seq<LineItem>, id: int): nat
  {
    if cart == [] then 0
    else (if cart[0].id == id then 1 else 0) + CountId(cart[1..], id)
  }

  /** No two entries carry the same id. */
  predicate UniqueIds(cart: seq<LineItem>)
  {
    forall i, j :: 0 <= i < j < |cart| ==> cart[i].id != cart[j].id
  }

  /** Every entry has an amount of at least zero. */
  predicate NonNegativeAmounts(cart: seq<LineItem>)
  {
    forall i :: 0 <= i < |cart| ==> cart[i].amount >= 0
  }

  /** The cart carries `id` exactly when it counts at least one entry with it. */
  lemma {:induction false} CountPositive(cart: seq<LineItem>, id: int)
    ensures CountId(cart, id) > 0 <==> HasItem(cart, id)
  {
    if cart != [] {
      CountPositive(cart[1..], id);
      if HasItem(cart[1..], id) {
        var k :| 0 <= k < |cart[1..]| && cart[1..][k].id == id;
        assert cart[k + 1].id == id;
      }
      if HasItem(cart, id) && cart[0].id != id {
        var k :| 0 <= k < |cart| && cart[k].id == id;
        assert cart[1..][k - 1].id == id;
      }
    }
  }

  /** Appending one entry adds one to the count of its id and nothing to the others. */
  lemma {:induction false} CountAppend(cart: seq<LineItem>, x: LineItem, id: int)
    ensures CountId(cart + [x], id) == CountId(cart, id) + (if x.id == id then 1 else 0)
  {
    if cart == [] {
      assert cart + [x] == [x];
      assert [x][1..] == [];
    } else {
      assert (cart + [x])[1..] == cart[1..] + [x];
      CountAppend(cart[1..], x, id);
    }
  }

  /** Two carts with the same ids position by position count every id alike. */
  lemma {:induction false} CountSameIds(a: seq<LineItem>, b: seq<LineItem>, id: int)
    requires |a| == |b|
    requires forall i :: 0 <= i < |a| ==> a[i].id == b[i].id
    ensures CountId(a, id) == CountId(b, id)
  {
    if a != [] {
      CountSameIds(a[1..], b[1..], id);
    }
  }
}
