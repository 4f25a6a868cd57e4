/**
 * The card-presence session of the application shell: the handlers of the
 * MQTT client (connect, subscribe callback, error, close, reconnect, message),
 * the card-removal debounce timer and the teardown, plus the cart badge total.
 *
 * Every handler is an event. The JavaScript timer table is modelled by
 * `armed`, the set of timer handles that were set and have neither been
 * cleared nor fired; `TimerFired(t)` runs the callback of timer `t` and is a
 * no-op when `t` is not armed (a cleared timer never fires).
 */
module App {
  import opened Common
  import Home

  /** What `JSON.parse` makes of a payload: a syntax error, the literal null, or a card object. */
  datatype Parsed = Malformed | NullCard | CardObject(card: Card)

  /** A message on the card-response topic: its text and what it parses to. */
  datatype Message = Message(text: string, parsed: Parsed)

  datatype Event =
    | Connect
    | SubscribeOk
    | SubscribeErr
    | Error
    | Close
    | Reconnect
    | Msg(msg: Message)
    | TimerFired(timer: nat)
    | Teardown

  datatype Publication = Publication(topic: string, payload: string)

  const RequestTopic := "card/request"
  const GetCurrent := Publication(RequestTopic, "get_current")
  const MsgInsertCard := "Please insert the card for checkout"
  const MsgInvalidCard := "Invalid card data received"
  const MsgSubscribeFailed := "Failed to connect to card reader"
  const MsgConnectionFailed := "Connection to card reader failed"

  /**
   * The observable state: the four React state fields, the message log, the
   * closure variable holding the removal timer, the live timers, the next
   * timer handle and what was published to the broker.
   */
  datatype Session = Session(
    cardData: Option<Card>,
    error: Option<string>,
    isCardLoading: bool,
    isMqttConnected: bool,
    removalTimeout: Option<nat>,
    armed: set<nat>,
    nextTimer: nat,
    messages: seq<string>,
    published: seq<Publication>)

  const Initial := Session(None, None, true, false, None, {}, 0, [], [])

  function SlotTimers(slot: Option<nat>): set<nat>
  {
    if slot.Some? then {slot.value} else {}
  }

  /** The debounce invariant: the only timer that may still fire is the one the closure variable holds. */
  ghost predicate Valid(s: Session)
  {
    && s.armed <= SlotTimers(s.removalTimeout)
    && (s.removalTimeout.Some? ==> s.removalTimeout.value < s.nextTimer)
  }

  /** Events the transport produces that carry no message. */
  predicate ConnectionEvent(e: Event)
  {
    e.Connect? || e.SubscribeOk? || e.SubscribeErr? || e.Error? || e.Close? || e.Reconnect?
  }

  lemma {:induction false} AtMostOneTimer(s: Session)
    requires Valid(s)
    ensures |s.armed| <= 1
  {
    if s.removalTimeout.Some? {
      var t := s.removalTimeout.value;
      assert s.armed == {} || s.armed == {t};
    } else {
      assert s.armed == {};
    }
  }

  /** The message handler: log, then parse; a parsed payload first clears the pending removal timer. */
  function OnMessage(s: Session, m: Message): Session
  {
    var logged := s.(messages := s.messages + [m.text]);
    if m.parsed.Malformed? then
      logged.(error := Some(MsgInvalidCard), isCardLoading := false)
    else
      var cleared := logged.(armed := logged.armed - SlotTimers(logged.removalTimeout), removalTimeout := None);
      if m.parsed.NullCard? then
        cleared.(removalTimeout := Some(cleared.nextTimer),
                 armed := cleared.armed + {cleared.nextTimer},
                 nextTimer := cleared.nextTimer + 1)
      else
        cleared.(cardData := Some(m.parsed.card), error := None, isCardLoading := false)
  }

  /** One event applied to the session. */
  function Next(s: Session, e: Event): (r: Session)
    ensures Valid(s) ==> Valid(r)
    ensures e.Msg? && e.msg.parsed.CardObject? ==>
      && r.cardData == Some(e.msg.parsed.card) && r.error == None && !r.isCardLoading
      && (Valid(s) ==> r.armed == {})
    ensures e.Msg? && e.msg.parsed.NullCard? ==>
      && r.cardData == s.cardData && r.error == s.error && r.isCardLoading == s.isCardLoading
      && r.removalTimeout == Some(s.nextTimer)
      && (Valid(s) ==> r.armed == {s.nextTimer})
    ensures e.Msg? && e.msg.parsed.Malformed? ==>
      && r.error == Some(MsgInvalidCard) && !r.isCardLoading
      && r.cardData == s.cardData && r.armed == s.armed && r.removalTimeout == s.removalTimeout
    ensures r.messages == s.messages + (if e.Msg? then [e.msg.text] else [])
    ensures r.published == s.published + (if e.SubscribeOk? then [GetCurrent] else [])
    ensures e.TimerFired? && e.timer !in s.armed ==> r == s
    ensures e.TimerFired? && e.timer in s.armed ==>
      r.cardData == None && r.error == Some(MsgInsertCard) && !r.isCardLoading && r.armed == s.armed - {e.timer}
    ensures e.Teardown? && Valid(s) ==> r.armed == {} && !r.isMqttConnected && r.cardData == s.cardData
    ensures e.Connect? ==> r.isMqttConnected && r.error == s.error && r.isCardLoading == s.isCardLoading
    ensures e.SubscribeOk? ==> r.error == s.error && r.isCardLoading == s.isCardLoading && r.isMqttConnected == s.isMqttConnected
    ensures e.SubscribeErr? ==>
      r.error == Some(MsgSubscribeFailed) && !r.isCardLoading && r.isMqttConnected == s.isMqttConnected
    ensures e.Error? ==> !r.isMqttConnected && r.error == Some(MsgConnectionFailed) && !r.isCardLoading
    ensures e.Close? ==> !r.isMqttConnected && r.isCardLoading && r.cardData == s.cardData && r.armed == s.armed
    ensures e.Reconnect? ==> r.isCardLoading && r.error == s.error && r.isMqttConnected == s.isMqttConnected
    ensures !e.Msg? && !e.TimerFired? ==> r.cardData == s.cardData
    ensures !e.Msg? && !e.Teardown? && !e.TimerFired? ==> r.armed == s.armed && r.removalTimeout == s.removalTimeout
  {
    match e
    case Connect => s.(isMqttConnected := true)
    case SubscribeOk => s.(published := s.published + [GetCurrent])
    case SubscribeErr => s.(error := Some(MsgSubscribeFailed), isCardLoading := false)
    case Error => s.(isMqttConnected := false, error := Some(MsgConnectionFailed), isCardLoading := false)
    case Close => s.(isMqttConnected := false, isCardLoading := true)
    case Reconnect => s.(isCardLoading := true)
    case Msg(m) => OnMessage(s, m)
    case TimerFired(t) =>
      if t in s.armed then
        s.(armed := s.armed - {t}, cardData := None, error := Some(MsgInsertCard), isCardLoading := false)
      else s
    case Teardown => s.(armed := s.armed - SlotTimers(s.removalTimeout), isMqttConnected := false)
  }

  /** A sequence of events applied in arrival order. */
  function Run(s: Session, es: seq<Event>): Session
    decreases |es|
  {
    if es == [] then s else Run(Next(s, es[0]), es[1..])
  }

  /** The texts of the messages among the events, in arrival order. */
  function Texts(es: seq<Event>): seq<string>
    decreases |es|
  {
    if es == [] then []
    else (if es[0].Msg? then [es[0].msg.text] else []) + Texts(es[1..])
  }

  lemma {:induction false} RunAppend(s: Session, a: seq<Event>, b: seq<Event>)
    ensures Run(s, a + b) == Run(Run(s, a), b)
    decreases |a|
  {
    if a == [] {
      assert a + b == b;
    } else {
      assert (a + b)[1..] == a[1..] + b;
      RunAppend(Next(s, a[0]), a[1..], b);
    }
  }

  /** From any valid state, whatever events arrive, at most one removal timer is ever pending. */
  lemma {:induction false} RunKeepsValid(s: Session, es: seq<Event>)
    requires Valid(s)
    ensures Valid(Run(s, es)) && |Run(s, es).armed| <= 1
    decreases |es|
  {
    if es == [] {
      AtMostOneTimer(s);
    } else {
      RunKeepsValid(Next(s, es[0]), es[1..]);
    }
  }

  /** From the session the page starts with, whatever events arrive, at most one removal timer is ever pending. */
  lemma {:induction false} StartupAtMostOneTimer(es: seq<Event>)
    ensures |Run(Initial, es).armed| <= 1
  {
    RunKeepsValid(Initial, es);
  }

  /** Every message, parsed or malformed, is appended to the log in arrival order. */
  lemma {:induction false} RunLogsMessages(s: Session, es: seq<Event>)
    ensures Run(s, es).messages == s.messages + Texts(es)
    decreases |es|
  {
    if es != [] {
      RunLogsMessages(Next(s, es[0]), es[1..]);
    }
  }

  /**
   * With no timer pending, nothing but a message changes the card: connection
   * events, teardown and stray timer events leave `cardData` as it was.
   */
  lemma {:induction false} QuietKeepsCard(s: Session, es: seq<Event>)
    requires s.armed == {}
    requires forall i :: 0 <= i < |es| ==> !es[i].Msg?
    ensures Run(s, es).cardData == s.cardData && Run(s, es).armed == {}
    decreases |es|
  {
    if es != [] {
      QuietKeepsCard(Next(s, es[0]), es[1..]);
    }
  }

  /**
   * A null message followed by a card before the timer fires: the card is
   * shown, and no later clearing happens until another message arrives.
   */
  lemma {:induction false} NullThenCardKeepsCard(s: Session, gone: Message, back: Message, es: seq<Event>)
    requires Valid(s)
    requires gone.parsed.NullCard? && back.parsed.CardObject?
    requires forall i :: 0 <= i < |es| ==> !es[i].Msg?
    ensures Run(s, [Msg(gone), Msg(back)] + es).cardData == Some(back.parsed.card)
  {
    var s1 := Next(s, Msg(gone));
    var s2 := Next(s1, Msg(back));
    assert s2.armed == {};
    var two := [Msg(gone), Msg(back)];
    assert two[1..] == [Msg(back)] && [Msg(back)][1..] == [];
    assert Run(s1, [Msg(back)]) == Run(s2, []);
    assert Run(s, two) == s2;
    RunAppend(s, [Msg(gone), Msg(back)], es);
    QuietKeepsCard(s2, es);
  }

  /** Connection events neither arm, clear nor fire the removal timer, nor touch the card. */
  lemma {:induction false} ConnectionEventsKeepTimer(s: Session, es: seq<Event>)
    requires forall i :: 0 <= i < |es| ==> ConnectionEvent(es[i])
    ensures Run(s, es).cardData == s.cardData
    ensures Run(s, es).armed == s.armed && Run(s, es).removalTimeout == s.removalTimeout
    decreases |es|
  {
    if es != [] {
      ConnectionEventsKeepTimer(Next(s, es[0]), es[1..]);
    }
  }

  /**
   * A null message keeps showing the previous card, through any connection
   * events (a close included), until its own timer fires; then the card is
   * cleared and the "insert card" error shown.
   */
  lemma {:induction false} NullDebounce(s: Session, gone: Message, es: seq<Event>)
    requires Valid(s) && gone.parsed.NullCard?
    requires forall i :: 0 <= i < |es| ==> ConnectionEvent(es[i])
    ensures var waiting := Run(Next(s, Msg(gone)), es);
      && waiting.cardData == s.cardData
      && waiting.armed == {s.nextTimer}
      && var fired := Next(waiting, TimerFired(s.nextTimer));
      && fired.cardData == None && fired.error == Some(MsgInsertCard) && !fired.isCardLoading
  {
    ConnectionEventsKeepTimer(Next(s, Msg(gone)), es);
  }

  /** After teardown no timer is pending, so no later timer event can clear the card. */
  lemma {:induction false} TeardownCancelsTimer(s: Session, es: seq<Event>)
    requires Valid(s)
    requires forall i :: 0 <= i < |es| ==> !es[i].Msg?
    ensures Run(Next(s, Teardown), es).armed == {}
    ensures Run(Next(s, Teardown), es).cardData == s.cardData
  {
    QuietKeepsCard(Next(s, Teardown), es);
  }

  /** The MQTT client's handlers, updating the session fields in place. */
  class CardSession {
    var cardData: Option<Card>
    var error: Option<string>
    var isCardLoading: bool
    var isMqttConnected: bool
    var removalTimeout: Option<nat>
    var armed: set<nat>
    var nextTimer: nat
    var messages: seq<string>
    var published: seq<Publication>

    function State(): Session
      reads this
    {
      Session(cardData, error, isCardLoading, isMqttConnected, removalTimeout, armed, nextTimer, messages, published)
    }

    constructor ()
      ensures State() == Initial && Valid(State())
    {
      cardData, error, isCardLoading, isMqttConnected := None, None, true, false;
      removalTimeout, armed, nextTimer := None, {}, 0;
      messages, published := [], [];
    }

    method OnConnect()
      modifies this
      ensures State() == Next(old(State()), Connect)
    {
      isMqttConnected := true;
    }

    /** The subscribe callback; on success it requests the current card. */
    method OnSubscribe(failed: bool)
      modifies this
      ensures State() == Next(old(State()), if failed then SubscribeErr else SubscribeOk)
    {
      if failed {
        error := Some(MsgSubscribeFailed);
        isCardLoading := false;
      } else {
        published := published + [GetCurrent];
      }
    }

    method OnError()
      modifies this
      ensures State() == Next(old(State()), Error)
    {
      isMqttConnected := false;
      error := Some(MsgConnectionFailed);
      isCardLoading := false;
    }

    method OnClose()
      modifies this
      ensures State() == Next(old(State()), Close)
    {
      isMqttConnected := false;
      isCardLoading := true;
    }

    method OnReconnect()
      modifies this
      ensures State() == Next(old(State()), Reconnect)
    {
      isCardLoading := true;
    }

    method OnMessage(m: Message)
      modifies this
      ensures State() == Next(old(State()), Msg(m))
    {
      messages := messages + [m.text];
      if m.parsed.Malformed? {
        error := Some(MsgInvalidCard);
        isCardLoading := false;
        return;
      }
      if removalTimeout.Some? {
        armed := armed - {removalTimeout.value};
        removalTimeout := None;
      }
      if m.parsed.NullCard? {
        removalTimeout := Some(nextTimer);
        armed := armed + {nextTimer};
        nextTimer := nextTimer + 1;
      } else {
        cardData := Some(m.parsed.card);
        error := None;
        isCardLoading := false;
      }
    }

    /** The callback of timer `t`, run only if that timer is still set. */
    method OnTimer(t: nat)
      modifies this
      ensures State() == Next(old(State()), TimerFired(t))
    {
      if t in armed {
        armed := armed - {t};
        cardData := None;
        error := Some(MsgInsertCard);
        isCardLoading := false;
      }
    }

    method Cleanup()
      modifies this
      ensures State() == Next(old(State()), Teardown)
    {
      if removalTimeout.Some? {
        armed := armed - {removalTimeout.value};
      }
      isMqttConnected := false;
    }
  }

  /** The cart badge: the sum of the quantities of the cart lines. */
  function TotalQuantity(cart: seq<CartLine>): int
    decreases |cart|
  {
    if cart == [] then 0 else TotalQuantity(cart[..|cart| - 1]) + cart[|cart| - 1].quantity
  }

  lemma {:induction false} TotalQuantityAppend(a: seq<CartLine>, b: seq<CartLine>)
    ensures TotalQuantity(a + b) == TotalQuantity(a) + TotalQuantity(b)
    decreases |b|
  {
    if b != [] {
      var ab := a + b;
      assert ab[..|ab| - 1] == a + b[..|b| - 1];
      TotalQuantityAppend(a, b[..|b| - 1]);
    } else {
      assert a + b == a;
    }
  }

  lemma {:induction false} TotalQuantityPointwise(a: seq<CartLine>, b: seq<CartLine>, id: int)
    requires |a| == |b|
    requires forall i :: 0 <= i < |a| ==> b[i].quantity == a[i].quantity + (if a[i].id == id then 1 else 0)
    requires forall i, j :: 0 <= i < j < |a| ==> !(a[i].id == id && a[j].id == id)
    ensures TotalQuantity(b) == TotalQuantity(a) + (if HasId(a, id) then 1 else 0)
    decreases |a|
  {
    if a != [] {
      var n := |a| - 1;
      TotalQuantityPointwise(a[..n], b[..n], id);
      assert HasId(a, id) <==> HasId(a[..n], id) || a[n].id == id;
    }
  }

  /**
   * The badge after an add to cart: one more item when the add succeeds
   * (new line or raised line), unchanged when refused for stock.
   */
  lemma {:induction false} AddToCartBadge(cart: seq<CartLine>, product: Product)
    requires UniqueIds(cart)
    ensures var r := Home.AddToCart(cart, product);
      TotalQuantity(r) == TotalQuantity(cart) + (if r == cart then 0 else 1)
  {
    var r := Home.AddToCart(cart, product);
    if !HasId(cart, product.id) {
      TotalQuantityAppend(cart, [Home.NewLine(product)]);
      assert [Home.NewLine(product)][..0] == [];
      assert r != cart by { assert |r| == |cart| + 1; }
    } else if r != cart {
      var k :| 0 <= k < |cart| && cart[k].id == product.id;
      TotalQuantityPointwise(cart, r, product.id);
    }
  }
}
