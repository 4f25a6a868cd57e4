/** The product grid's cart updates: add to cart and buy now. */
module Home {
  import opened Common

  /** The index of the first line with this id: what `cart.find` locates. */
  function FindLine(cart: seq<CartLine>, id: int): (r: Option<nat>)
    ensures r.Some? ==> r.value < |cart| && cart[r.value].id == id
    ensures r.Some? ==> forall j :: 0 <= j < r.value ==> cart[j].id != id
    ensures r.None? <==> !HasId(cart, id)
    decreases |cart|
  {
    if cart == [] then None
    else if cart[0].id == id then Some(0)
    else match FindLine(cart[1..], id)
      case None => None
      case Some(k) => Some(k + 1)
  }

  /** The line a product becomes when first added: quantity 1, stock the product's quantity. */
  function NewLine(product: Product): CartLine
  {
    CartLine(product.id, product.name, product.price, 1, product.quantity)
  }

  /** Every line with this id, one more item. */
  function RaiseMatching(cart: seq<CartLine>, id: int): seq<CartLine>
  {
    seq(|cart|, i requires 0 <= i < |cart| =>
      if cart[i].id == id then cart[i].(quantity := cart[i].quantity + 1) else cart[i])
  }

  /** The line found for the product is still below the product's stock. */
  predicate BelowStock(cart: seq<CartLine>, product: Product)
  {
    var found := FindLine(cart, product.id);
    found.Some? && cart[found.value].quantity < product.quantity
  }

  /** The add-to-cart updater. */
  function AddToCart(cart: seq<CartLine>, product: Product): (r: seq<CartLine>)
    ensures !HasId(cart, product.id) ==> |r| == |cart| + 1 && r[..|cart|] == cart && r[|cart|] == NewLine(product)
    ensures HasId(cart, product.id) && !BelowStock(cart, product) ==> r == cart
    ensures HasId(cart, product.id) && BelowStock(cart, product) ==>
      && |r| == |cart|
      && (forall i :: 0 <= i < |cart| && cart[i].id != product.id ==> r[i] == cart[i])
      && (forall i :: 0 <= i < |cart| && cart[i].id == product.id ==>
            r[i] == cart[i].(quantity := cart[i].quantity + 1))
  {
    match FindLine(cart, product.id)
    case Some(k) =>
      if cart[k].quantity < product.quantity then RaiseMatching(cart, product.id) else cart
    case None => cart + [NewLine(product)]
  }

  /** An add never creates a second line for a product id. */
  lemma {:induction false} AddKeepsIdsUnique(cart: seq<CartLine>, product: Product)
    requires UniqueIds(cart)
    ensures UniqueIds(AddToCart(cart, product))
  {
    var r := AddToCart(cart, product);
    if !HasId(cart, product.id) {
      forall i, j | 0 <= i < j < |r| ensures r[i].id != r[j].id {
        if j == |cart| {
          assert r[i] == cart[i];
        } else {
          assert r[i] == cart[i] && r[j] == cart[j];
        }
      }
    }
  }

  /** On a cart with one line per id, a successful add on a present product raises exactly that line by one. */
  lemma {:induction false} AddRaisesOneLine(cart: seq<CartLine>, product: Product)
    requires UniqueIds(cart) && BelowStock(cart, product)
    ensures var k := FindLine(cart, product.id).value;
      AddToCart(cart, product) == cart[k := cart[k].(quantity := cart[k].quantity + 1)]
  {
    var k := FindLine(cart, product.id).value;
    var r := AddToCart(cart, product);
    var expected := cart[k := cart[k].(quantity := cart[k].quantity + 1)];
    assert |r| == |expected|;
    forall i | 0 <= i < |r| ensures r[i] == expected[i] {
      if i != k {
        assert cart[i].id != product.id;
      }
    }
  }

  /**
   * Buy now: adds a quantity-1 line only for an absent product, never raises
   * an existing line; the result is both the new cart and what the cart page
   * is opened with.
   */
  function BuyNow(cart: seq<CartLine>, product: Product): (r: seq<CartLine>)
    ensures HasId(cart, product.id) ==> r == cart
    ensures !HasId(cart, product.id) ==> r == AddToCart(cart, product)
  {
    if FindLine(cart, product.id).None? then cart + [NewLine(product)] else cart
  }
}
