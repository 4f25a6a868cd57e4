/**
 * The cart page: quantity buttons, removal, the ordered checkout guards, the
 * order payload and its outcome, the total and the checkout button's
 * enabling predicate. Money is in integer minor units.
 */
module Cart {
  import opened Common
  import Home

  const MsgStock := "Cannot add more than available stock!"
  const MsgEmptyCart := "Cart is empty!"
  const MsgOverStock := "Some items exceed available stock!"
  const MsgInsertCard := "Please insert the card for checkout"
  const MsgOrderFailed := "Order failed. Try again."
  const MsgOrderError := "Error while placing order. Please try again."
  const MsgInvalidUserCard := "Invalid user card"

  /** Every line holds at least one item and no more than its stock. */
  predicate WithinStock(cart: seq<CartLine>)
  {
    forall i :: 0 <= i < |cart| ==> 1 <= cart[i].quantity <= cart[i].stock
  }

  /** The cart after the "+" button of line `index`. */
  function Increased(cart: seq<CartLine>, index: nat): (r: seq<CartLine>)
    requires index < |cart|
    ensures |r| == |cart|
    ensures forall j :: 0 <= j < |cart| && j != index ==> r[j] == cart[j]
    ensures cart[index].quantity < cart[index].stock ==> r[index] == cart[index].(quantity := cart[index].quantity + 1)
    ensures cart[index].quantity >= cart[index].stock ==> r == cart
    ensures WithinStock(cart) ==> WithinStock(r)
  {
    var line := cart[index];
    if line.quantity < line.stock then cart[index := line.(quantity := line.quantity + 1)] else cart
  }

  /** The cart after the "-" button of line `index`. */
  function Decreased(cart: seq<CartLine>, index: nat): (r: seq<CartLine>)
    requires index < |cart|
    ensures |r| == |cart|
    ensures forall j :: 0 <= j < |cart| && j != index ==> r[j] == cart[j]
    ensures cart[index].quantity > 1 ==> r[index] == cart[index].(quantity := cart[index].quantity - 1)
    ensures cart[index].quantity <= 1 ==> r == cart
    ensures cart[index].quantity >= 1 ==> r[index].quantity >= 1
    ensures WithinStock(cart) ==> WithinStock(r)
  {
    var line := cart[index];
    if line.quantity > 1 then cart[index := line.(quantity := line.quantity - 1)] else cart
  }

  /** The cart after `splice(index, 1)`: exactly line `index` is gone. */
  function Removed(cart: seq<CartLine>, index: nat): (r: seq<CartLine>)
    requires index < |cart|
    ensures |r| == |cart| - 1
    ensures forall j :: 0 <= j < index ==> r[j] == cart[j]
    ensures forall j :: index <= j < |r| ==> r[j] == cart[j + 1]
    ensures multiset(r) + multiset{cart[index]} == multiset(cart)
    ensures WithinStock(cart) ==> WithinStock(r)
    ensures UniqueIds(cart) ==> UniqueIds(r)
  {
    assert cart == cart[..index] + [cart[index]] + cart[index + 1..];
    cart[..index] + cart[index + 1..]
  }

  function Subtotal(line: CartLine): int
  {
    line.price * line.quantity
  }

  /** The order total: the sum of price times quantity over the lines. */
  function TotalPrice(cart: seq<CartLine>): int
    decreases |cart|
  {
    if cart == [] then 0 else TotalPrice(cart[..|cart| - 1]) + Subtotal(cart[|cart| - 1])
  }

  lemma {:induction false} TotalPriceAppend(a: seq<CartLine>, b: seq<CartLine>)
    ensures TotalPrice(a + b) == TotalPrice(a) + TotalPrice(b)
    decreases |b|
  {
    if b == [] {
      assert a + b == a;
    } else {
      var ab := a + b;
      assert ab[..|ab| - 1] == a + b[..|b| - 1];
      TotalPriceAppend(a, b[..|b| - 1]);
    }
  }

  /** Replacing one line changes the total by the difference of the two subtotals. */
  lemma {:induction false} TotalPriceUpdate(cart: seq<CartLine>, index: nat, line: CartLine)
    requires index < |cart|
    ensures TotalPrice(cart[index := line]) == TotalPrice(cart) - Subtotal(cart[index]) + Subtotal(line)
    decreases |cart|
  {
    var n := |cart| - 1;
    var updated := cart[index := line];
    assert updated[..n] == if index == n then cart[..n] else cart[..n][index := line];
    if index < n {
      TotalPriceUpdate(cart[..n], index, line);
    }
  }

  /** "+" raises the total by the line's price exactly when it raises the quantity. */
  lemma {:induction false} IncreaseRaisesTotal(cart: seq<CartLine>, index: nat)
    requires index < |cart|
    ensures var line := cart[index];
      TotalPrice(Increased(cart, index)) == TotalPrice(cart) + (if line.quantity < line.stock then line.price else 0)
  {
    var line := cart[index];
    if line.quantity < line.stock {
      var raised := line.(quantity := line.quantity + 1);
      assert Increased(cart, index) == cart[index := raised];
      TotalPriceUpdate(cart, index, raised);
      OneMoreItem(line.price, line.quantity);
    }
  }

  lemma {:induction false} OneMoreItem(price: int, quantity: int)
    ensures price * (quantity + 1) == price * quantity + price
  {
  }

  /** Removing a line lowers the total by that line's subtotal. */
  lemma {:induction false} RemoveLowersTotal(cart: seq<CartLine>, index: nat)
    requires index < |cart|
    ensures TotalPrice(Removed(cart, index)) == TotalPrice(cart) - Subtotal(cart[index])
  {
    assert cart == cart[..index] + [cart[index]] + cart[index + 1..];
    TotalPriceAppend(cart[..index] + [cart[index]], cart[index + 1..]);
    TotalPriceAppend(cart[..index], [cart[index]]);
    TotalPriceAppend(cart[..index], cart[index + 1..]);
    assert [cart[index]][..0] == [];
  }

  /** `cart.some(item => item.quantity > item.stock)`. */
  function ExceedsStock(cart: seq<CartLine>): (b: bool)
    ensures b <==> exists i :: 0 <= i < |cart| && cart[i].quantity > cart[i].stock
    decreases |cart|
  {
    if cart == [] then false
    else if cart[0].quantity > cart[0].stock then true
    else
      var rest := ExceedsStock(cart[1..]);
      assert rest ==> exists i :: 0 <= i < |cart| && cart[i].quantity > cart[i].stock by {
        if rest {
          var i :| 0 <= i < |cart| - 1 && cart[1..][i].quantity > cart[1..][i].stock;
          assert cart[i + 1] == cart[1..][i];
        }
      }
      assert !rest ==> forall i :: 0 <= i < |cart| ==> cart[i].quantity <= cart[i].stock by {
        if !rest {
          forall i | 0 <= i < |cart| ensures cart[i].quantity <= cart[i].stock {
            if i > 0 { assert cart[i] == cart[1..][i - 1]; }
          }
        }
      }
      rest
  }

  /** One entry of the order request. */
  datatype OrderItem = OrderItem(id: int, quantity: int)

  /** The `products` of the order request: the cart, line for line, reduced to id and quantity. */
  function OrderPayload(cart: seq<CartLine>): (r: seq<OrderItem>)
    ensures |r| == |cart|
    ensures forall i :: 0 <= i < |cart| ==> r[i].id == cart[i].id && r[i].quantity == cart[i].quantity
  {
    seq(|cart|, i requires 0 <= i < |cart| => OrderItem(cart[i].id, cart[i].quantity))
  }

  /**
   * What the order request came back with: a response body (`success`, the
   * confirmed `cart`, an `error` text), or a thrown error carrying the
   * response body's `error` text if there was one.
   */
  datatype OrderResponse =
    | Answered(success: bool, confirmed: Option<seq<DispenseLine>>, message: Option<string>)
    | Threw(responseError: Option<string>)

  datatype OrderOutcome = Accepted(confirmed: Option<seq<DispenseLine>>) | Refused(message: string)

  /**
   * `text || fallback`: the result is one of the two; it is the fallback only
   * when the text is missing, empty or equal to it; and it is empty only when
   * both are.
   */
  function OrElse(text: Option<string>, fallback: string): (r: string)
    ensures r == fallback || Some(r) == text
    ensures r == fallback <==> text.None? || text.value == "" || text.value == fallback
    ensures r == "" <==> fallback == "" && (text.None? || text.value == "")
  {
    if text.Some? && text.value != "" then text.value else fallback
  }

  /** How a submitted order ends: accepted on a successful answer, else refused with the server's reason or a default. */
  function Outcome(response: OrderResponse): (o: OrderOutcome)
    ensures o.Accepted? <==> response.Answered? && response.success
    ensures o.Accepted? ==> o.confirmed == response.confirmed
    ensures o.Refused? && response.Answered? ==> o.message == OrElse(response.message, MsgOrderFailed)
    ensures o.Refused? && response.Threw? ==> o.message == OrElse(response.responseError, MsgOrderError)
  {
    match response
    case Answered(success, confirmed, message) =>
      if success then Accepted(confirmed) else Refused(OrElse(message, MsgOrderFailed))
    case Threw(responseError) => Refused(OrElse(responseError, MsgOrderError))
  }

  datatype CheckoutResult =
    | EmptyCart
    | OverStock
    | NoCard
    | Ordered(order: seq<OrderItem>, outcome: OrderOutcome)

  /**
   * The checkout handler: guards in order (empty cart, a line over stock, no
   * card), the first failure wins; only when all pass is the order sent.
   * The card's credit is not consulted.
   */
  function CheckoutDecision(cart: seq<CartLine>, cardData: Option<Card>, response: OrderResponse): (r: CheckoutResult)
    ensures r.EmptyCart? <==> |cart| == 0
    ensures r.OverStock? <==> |cart| > 0 && exists i :: 0 <= i < |cart| && cart[i].quantity > cart[i].stock
    ensures r.NoCard? <==> |cart| > 0 && (forall i :: 0 <= i < |cart| ==> cart[i].quantity <= cart[i].stock) && cardData.None?
    ensures r.Ordered? <==> |cart| > 0 && (forall i :: 0 <= i < |cart| ==> cart[i].quantity <= cart[i].stock) && cardData.Some?
    ensures r.Ordered? ==> r.order == OrderPayload(cart) && r.outcome == Outcome(response)
  {
    if |cart| == 0 then EmptyCart
    else if ExceedsStock(cart) then OverStock
    else if cardData.None? then NoCard
    else Ordered(OrderPayload(cart), Outcome(response))
  }

  /** The checkout button's `disabled` predicate. */
  predicate CheckoutDisabled(cardData: Option<Card>, total: int, error: Option<string>)
  {
    cardData.None? || cardData.value.credit < total || error == Some(MsgInvalidUserCard)
  }

  /** An enabled button means a card whose credit covers the total. */
  lemma {:induction false} EnabledMeansCredit(cardData: Option<Card>, total: int, error: Option<string>)
    requires !CheckoutDisabled(cardData, total, error)
    ensures cardData.Some? && cardData.value.credit >= total
  {
  }

  /** Pressing an enabled button on a non-empty cart within stock sends the order. */
  lemma {:induction false} EnabledCheckoutOrders(cart: seq<CartLine>, cardData: Option<Card>, error: Option<string>, response: OrderResponse)
    requires |cart| > 0 && WithinStock(cart)
    requires !CheckoutDisabled(cardData, TotalPrice(cart), error)
    ensures  CheckoutDecision(cart, cardData, response).Ordered?
  {
  }

  /** The handler itself never compares credit with the total: only the button does. */
  lemma {:induction false} CheckoutIgnoresCredit(cart: seq<CartLine>, card: Card, credit: int, response: OrderResponse)
    ensures  CheckoutDecision(cart, Some(card), response) ==  CheckoutDecision(cart, Some(card.(credit := credit)), response)
  {
  }

  /**
   * The home page bounds a raise by the product's current quantity, the cart
   * page by the line's `stock`: when the catalogue stock grew after the line
   * was created, an add can take a line past its `stock`, and checkout then
   * refuses it.
   */
  lemma {:induction false} AddCanExceedLineStock()
    ensures var cart := [CartLine(7, "chips", 20, 2, 2)];
      var grown := Product(7, "chips", 20, 5);
      var r := Home.AddToCart(cart, grown);
      r[0].quantity == 3 && CheckoutDecision(r, Some(Card("u", "n", 100)), Threw(None)) == OverStock
  {
    var cart := [CartLine(7, "chips", 20, 2, 2)];
    assert Home.FindLine(cart, 7) == Some(0);
  }

  datatype Navigation = Stay | ToDispensing(cart: Option<seq<DispenseLine>>)

  /** The error text the page shows after a checkout attempt. */
  function ErrorAfter(r: CheckoutResult, error: Option<string>): Option<string>
  {
    match r
    case NoCard => Some(MsgInsertCard)
    case Ordered(_, Refused(message)) => Some(message)
    case _ => error
  }

  function AlertsOf(r: CheckoutResult): seq<string>
  {
    match r
    case EmptyCart => [MsgEmptyCart]
    case OverStock => [MsgOverStock]
    case _ => []
  }

  /**
   * The cart page's state: its local cart, the application's cart (written
   * through `setCart`), the polled card, the error text, the alerts shown and
   * the order requests sent.
   */
  class CartPage {
    var localCart: seq<CartLine>
    var appCart: seq<CartLine>
    var cardData: Option<Card>
    var error: Option<string>
    var alerts: seq<string>
    var orders: seq<seq<OrderItem>>

    constructor (cart: seq<CartLine>, card: Option<Card>, shownError: Option<string>)
      ensures localCart == cart && appCart == cart && cardData == card && error == shownError
      ensures alerts == [] && orders == []
    {
      localCart, appCart := cart, cart;
      cardData, error := card, shownError;
      alerts, orders := [], [];
    }

    method IncreaseQty(index: nat)
      requires index < |localCart|
      modifies this
      ensures localCart == Increased(old(localCart), index)
      ensures var line := old(localCart)[index];
        && appCart == (if line.quantity < line.stock then localCart else old(appCart))
        && alerts == old(alerts) + (if line.quantity < line.stock then [] else [MsgStock])
      ensures cardData == old(cardData) && error == old(error) && orders == old(orders)
    {
      var newCart := localCart;
      if newCart[index].quantity < newCart[index].stock {
        newCart := newCart[index := newCart[index].(quantity := newCart[index].quantity + 1)];
        localCart := newCart;
        appCart := newCart;
      } else {
        alerts := alerts + [MsgStock];
      }
    }

    method DecreaseQty(index: nat)
      requires index < |localCart|
      modifies this
      ensures localCart == Decreased(old(localCart), index)
      ensures appCart == (if old(localCart)[index].quantity > 1 then localCart else old(appCart))
      ensures cardData == old(cardData) && error == old(error) && alerts == old(alerts) && orders == old(orders)
    {
      var newCart := localCart;
      if newCart[index].quantity > 1 {
        newCart := newCart[index := newCart[index].(quantity := newCart[index].quantity - 1)];
        localCart := newCart;
        appCart := newCart;
      }
    }

    method RemoveItem(index: nat)
      requires index < |localCart|
      modifies this
      ensures localCart == Removed(old(localCart), index) && appCart == localCart
      ensures cardData == old(cardData) && error == old(error) && alerts == old(alerts) && orders == old(orders)
    {
      var newCart := localCart;
      newCart := newCart[..index] + newCart[index + 1..];
      localCart := newCart;
      appCart := newCart;
    }

    /** The checkout handler; `response` is what the order request would come back with. */
    method Checkout(response: OrderResponse) returns (nav: Navigation)
      modifies this
      ensures var r := CheckoutDecision(old(localCart), old(cardData), response);
        && alerts == old(alerts) + AlertsOf(r)
        && orders == old(orders) + (if r.Ordered? then [r.order] else [])
        && error == ErrorAfter(r, old(error))
        && (if r.Ordered? && r.outcome.Accepted?
            then localCart == [] && appCart == [] && nav == ToDispensing(r.outcome.confirmed)
            else localCart == old(localCart) && appCart == old(appCart) && nav == Stay)
      ensures cardData == old(cardData)
    {
      nav := Stay;
      if |localCart| == 0 {
        alerts := alerts + [MsgEmptyCart];
        return;
      }
      var exceeds := ExceedsStock(localCart);
      if exceeds {
        alerts := alerts + [MsgOverStock];
        return;
      }
      if cardData.None? {
        error := Some(MsgInsertCard);
        return;
      }
      var orderProducts := OrderPayload(localCart);
      orders := orders + [orderProducts];
      match response
      case Answered(success, confirmed, message) =>
        if success {
          nav := ToDispensing(confirmed);
          appCart := [];
          localCart := [];
        } else {
          error := Some(OrElse(message, MsgOrderFailed));
        }
      case Threw(responseError) =>
        error := Some(OrElse(responseError, MsgOrderError));
    }
  }
}
