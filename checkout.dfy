/** src/checkout.js: turning the stored cart into a Shopify cart and sending the browser to its
    checkout page. The browser window is an object whose address and alert history the code
    changes; storage is the shared localStorage. */
module Checkout {
  import opened Wrappers
  import opened JsValue
  import opened Storage
  import opened Gateway
  import Cart

  /** The parts of `window` the code touches: `location.href` and the `alert`s shown so far. */
  class Window {
    var href: string
    var alerts: seq<string>

    constructor (href: string)
      ensures this.href == href && alerts == []
    {
      this.href := href;
      alerts := [];
    }
  }

  /** What the code can observe and change: storage, the address, the alerts shown. */
  datatype Page = Page(items: Items, href: string, alerts: seq<string>)

  /** The result of one call, the page after it, and the requests sent in order. */
  datatype Outcome = Outcome(result: Result<()>, page: Page, sent: seq<Request>)

  /** The text checkout alerts for a failure: `Checkout failed: ${error.message}`. */
  function Alert(e: Error): string {
    "Checkout failed: " + e.message
  }

  /** `{ quantity: item.quantity, merchandiseId: item.variantId }`. */
  function LineInput(item: Value): Result<Value> {
    var quantity :- Prop(item, "quantity");
    Ok(Obj(map["quantity" := quantity, "merchandiseId" := Get(item, "variantId")]))
  }

  function LineInputsOf(items: seq<Value>): (r: Result<seq<Value>>)
    ensures r.Ok? ==> |r.value| == |items| && forall i :: 0 <= i < |items| ==> LineInput(items[i]) == Ok(r.value[i])
    decreases |items|
  {
    if items == [] then Ok([])
    else
      var first :- LineInput(items[0]);
      var rest :- LineInputsOf(items[1..]);
      assert forall i :: 1 <= i < |items| ==> items[i] == items[1..][i - 1];
      Ok([first] + rest)
  }

  /** `lineItems.map((item) => ({ quantity: item.quantity, merchandiseId: item.variantId }))`. */
  function LineInputs(lineItems: Value): (r: Result<Value>)
    ensures r.Ok? ==> lineItems.Arr? && r.value.Arr? && |r.value.items| == |lineItems.items|
  {
    if !lineItems.Arr? then Err(TypeError("lineItems.map is not a function"))
    else
      var inputs :- LineInputsOf(lineItems.items);
      Ok(Arr(inputs))
  }

  function CartLineInput(l: Cart.Line): Value {
    Obj(map["quantity" := Num(l.quantity), "merchandiseId" := Str(l.variantId)])
  }

  function CartInputs(lines: seq<Cart.Line>): Value {
    Arr(seq(|lines|, i requires 0 <= i < |lines| => CartLineInput(lines[i])))
  }

  /** The stored cart's lines become the cart input's lines one for one, in order. */
  lemma LineInputsOfCart(lines: seq<Cart.Line>)
    ensures LineInputs(Cart.EncodeLines(lines)) == Ok(CartInputs(lines))
  {
    var v := Cart.EncodeLines(lines);
    forall i | 0 <= i < |lines| ensures LineInput(v.items[i]) == Ok(CartLineInput(lines[i])) {
      assert v.items[i] == Cart.EncodeLine(lines[i]);
    }
    assert forall i :: 0 <= i < |lines| ==> LineInput(v.items[i]).Ok?;
    var r := LineInputsOf(v.items);
    assert r.Ok? by {
      LineInputsOfOk(v.items);
    }
    assert r.value == seq(|lines|, i requires 0 <= i < |lines| => CartLineInput(lines[i]));
  }

  lemma {:induction false} LineInputsOfOk(items: seq<Value>)
    requires forall i :: 0 <= i < |items| ==> LineInput(items[i]).Ok?
    ensures LineInputsOf(items).Ok?
    decreases |items|
  {
    if items != [] {
      assert forall i :: 1 <= i < |items| ==> items[1..][i - 1] == items[i];
      LineInputsOfOk(items[1..]);
    }
  }

  /** `array.join(sep)` over JavaScript values: null and undefined print as ''. */
  function JoinValues(vs: seq<Value>, sep: string): string {
    Join(seq(|vs|, i requires 0 <= i < |vs| => if Nullish(vs[i]) then "" else ToStr(vs[i])), sep)
  }

  /** `userErrors.map((error) => error.message)`. */
  function Messages(errors: seq<Value>): (r: Result<seq<Value>>)
    ensures r.Ok? ==> |r.value| == |errors| && forall i :: 0 <= i < |errors| ==> Prop(errors[i], "message") == Ok(r.value[i])
    decreases |errors|
  {
    if errors == [] then Ok([])
    else
      var m :- Prop(errors[0], "message");
      var rest :- Messages(errors[1..]);
      assert forall i :: 1 <= i < |errors| ==> errors[i] == errors[1..][i - 1];
      Ok([m] + rest)
  }

  /** The Error createCart throws for non-empty userErrors: their messages joined by ', '. */
  function UserErrorsFailure(userErrors: Value): Error {
    if !userErrors.Arr? then TypeError("userErrors.map is not a function")
    else
      match Messages(userErrors.items)
      case Ok(ms) => Error(JoinValues(ms, ", "))
      case Err(e) => e
  }

  /** What `createCart(lineItems)` returns or throws, what it sends, and storage after it. Storage
      changes only on success, where shopifyCartId receives `String(cart.id)`. */
  function CreateCartSpec(items: Items, gw: Request -> Value, lineItems: Value): (Result<Value>, seq<Request>, Items) {
    match LineInputs(lineItems)
    case Err(e) => (Err(e), [], items)
    case Ok(lines) =>
      var req := CreateCart(Obj(map["lines" := lines]));
      match Prop(gw(req), "cartCreate")
      case Err(e) => (Err(e), [req], items)
      case Ok(cartCreate) =>
        match Prop(cartCreate, "userErrors")
        case Err(e) => (Err(e), [req], items)
        case Ok(userErrors) =>
          if Truthy(userErrors) && LengthPositive(userErrors) then (Err(UserErrorsFailure(userErrors)), [req], items)
          else
            var cart := Get(cartCreate, "cart");
            match Prop(cart, "id")
            case Err(e) => (Err(e), [req], items)
            case Ok(id) => (Ok(cart), [req], items[Cart.CartIdKey := Text(ToStr(id))])
  }

  method CreateCartIn(ls: LocalStorage, gw: Request -> Value, lineItems: Value) returns (r: Result<Value>, sent: seq<Request>)
    modifies ls
    ensures (r, sent, ls.items) == CreateCartSpec(old(ls.items), gw, lineItems)
  {
    var lines := LineInputs(lineItems);
    if lines.Err? {
      return Err(lines.error), [];
    }
    var req := CreateCart(Obj(map["lines" := lines.value]));
    sent := [req];
    var cartCreate := Prop(gw(req), "cartCreate");
    if cartCreate.Err? {
      return Err(cartCreate.error), sent;
    }
    var userErrors := Prop(cartCreate.value, "userErrors");
    if userErrors.Err? {
      return Err(userErrors.error), sent;
    }
    if Truthy(userErrors.value) && LengthPositive(userErrors.value) {
      return Err(UserErrorsFailure(userErrors.value)), sent;
    }
    var cart := Get(cartCreate.value, "cart");
    var id := Prop(cart, "id");
    if id.Err? {
      return Err(id.error), sent;
    }
    ls.SetItem(Cart.CartIdKey, Text(ToStr(id.value)));
    r := Ok(cart);
  }

  /** The answer of the gateway to a cart creation whose user errors carry the given messages. */
  function UserErrorsAnswer(messages: seq<string>): Value {
    Obj(map["cartCreate" := Obj(map["userErrors" :=
      Arr(seq(|messages|, i requires 0 <= i < |messages| => Obj(map["message" := Str(messages[i])])))])])
  }

  /** The user errors' messages, joined by ', ', are what is thrown. */
  lemma UserErrorsMessage(messages: seq<string>)
    ensures UserErrorsFailure(UserErrorsAnswer(messages).fields["cartCreate"].fields["userErrors"])
      == Error(Join(messages, ", "))
  {
    var errors := UserErrorsAnswer(messages).fields["cartCreate"].fields["userErrors"].items;
    var ms := Messages(errors);
    assert ms.Ok? by {
      MessagesOfStrings(errors, messages);
    }
    assert ms.value == seq(|messages|, i requires 0 <= i < |messages| => Str(messages[i]));
    var printed := seq(|ms.value|, i requires 0 <= i < |ms.value| => if Nullish(ms.value[i]) then "" else ToStr(ms.value[i]));
    assert printed == messages;
  }

  /** Non-empty user errors throw their messages joined by ', ' and leave shopifyCartId alone. */
  lemma UserErrorsThrow(items: Items, gw: Request -> Value, lines: seq<Cart.Line>, messages: seq<string>)
    requires messages != []
    requires gw(CreateCart(Obj(map["lines" := CartInputs(lines)]))) == UserErrorsAnswer(messages)
    ensures CreateCartSpec(items, gw, Cart.EncodeLines(lines)) ==
      (Err(Error(Join(messages, ", "))), [CreateCart(Obj(map["lines" := CartInputs(lines)]))], items)
  {
    LineInputsOfCart(lines);
    UserErrorsMessage(messages);
    var userErrors := UserErrorsAnswer(messages).fields["cartCreate"].fields["userErrors"];
    assert Get(userErrors, "length") == Num(|messages|);
  }

  lemma {:induction false} MessagesOfStrings(errors: seq<Value>, messages: seq<string>)
    requires |errors| == |messages|
    requires forall i :: 0 <= i < |errors| ==> errors[i] == Obj(map["message" := Str(messages[i])])
    ensures Messages(errors).Ok?
    decreases |errors|
  {
    if errors != [] {
      MessagesOfStrings(errors[1..], messages[1..]);
    }
  }

  /** Without user errors, a cart with an id is returned and its id stored. */
  lemma CreateCartStoresId(items: Items, gw: Request -> Value, lineItems: Value, inputs: Value, cart: Value, id: string)
    requires LineInputs(lineItems) == Ok(inputs)
    requires gw(CreateCart(Obj(map["lines" := inputs]))) == Obj(map["cartCreate" := Obj(map["userErrors" := Arr([]), "cart" := cart])])
    requires cart.Obj? && "id" in cart.fields && cart.fields["id"] == Str(id)
    ensures CreateCartSpec(items, gw, lineItems) == (Ok(cart), [CreateCart(Obj(map["lines" := inputs]))], items[Cart.CartIdKey := Text(id)])
  {
  }

  /** `JSON.parse(localStorage.getItem('shopifyCart') || '[]')`. */
  function StoredCart(items: Items): Result<Value> {
    if Cart.CartKey in items && CellTruthy(items[Cart.CartKey]) then ParseCell(items[Cart.CartKey]) else Ok(Arr([]))
  }

  /** The part of checkout inside its try block: the checkout URL on success, with the requests and
      the storage it leaves. */
  function CheckoutAttempt(items: Items, gw: Request -> Value): (Result<Value>, seq<Request>, Items) {
    match StoredCart(items)
    case Err(e) => (Err(e), [], items)
    case Ok(localCart) =>
      match Prop(localCart, "length")
      case Err(e) => (Err(e), [], items)
      case Ok(length) =>
        if length == Num(0) then (Err(Error("Cart is empty")), [], items)
        else
          var created := CreateCartSpec(items, gw, localCart);
          (CheckoutUrl(created.0), created.1, created.2)
  }

  /** `if (!cart.checkoutUrl) throw ...`, applied to what createCart returned or threw. */
  function CheckoutUrl(created: Result<Value>): (r: Result<Value>)
    ensures r.Ok? ==> Truthy(r.value)
  {
    var cart :- created;
    var url :- Prop(cart, "checkoutUrl");
    if !Truthy(url) then Err(Error("Failed to get checkout URL")) else Ok(url)
  }

  /** `checkout()`: on success the browser goes to the checkout URL; every failure is alerted as
      `Checkout failed: <message>` and thrown again. */
  function CheckoutSpec(page: Page, gw: Request -> Value): Outcome {
    var (url, sent, after) := CheckoutAttempt(page.items, gw);
    match url
    case Ok(u) => Outcome(Ok(()), Page(after, ToStr(u), page.alerts), sent)
    case Err(e) => Outcome(Err(e), Page(after, page.href, page.alerts + [Alert(e)]), sent)
  }

  method CheckoutIn(ls: LocalStorage, win: Window, gw: Request -> Value) returns (r: Result<()>, sent: seq<Request>)
    modifies ls, win
    ensures Outcome(r, Page(ls.items, win.href, win.alerts), sent) == CheckoutSpec(old(Page(ls.items, win.href, win.alerts)), gw)
  {
    var attempt := Attempt(ls, gw);
    sent := attempt.1;
    match attempt.0 {
      case Ok(u) =>
        win.href := ToStr(u);
        r := Ok(());
      case Err(e) =>
        win.alerts := win.alerts + [Alert(e)];
        r := Err(e);
    }
  }

  /** The try block of checkout, against the storage object. */
  method Attempt(ls: LocalStorage, gw: Request -> Value) returns (attempt: (Result<Value>, seq<Request>))
    modifies ls
    ensures (attempt.0, attempt.1, ls.items) == CheckoutAttempt(old(ls.items), gw)
  {
    var localCart := StoredCart(ls.items);
    if localCart.Err? {
      return (Err(localCart.error), []);
    }
    var length := Prop(localCart.value, "length");
    if length.Err? {
      return (Err(length.error), []);
    }
    if length.value == Num(0) {
      return (Err(Error("Cart is empty")), []);
    }
    var created, sent := CreateCartIn(ls, gw, localCart.value);
    if created.Err? {
      return (Err(created.error), sent);
    }
    var url := Prop(created.value, "checkoutUrl");
    if url.Err? {
      return (Err(url.error), sent);
    }
    if !Truthy(url.value) {
      return (Err(Error("Failed to get checkout URL")), sent);
    }
    return (Ok(url.value), sent);
  }

  /** An empty or missing stored cart fails before any request, with no redirect. */
  lemma EmptyCartFails(page: Page, gw: Request -> Value)
    requires Cart.CartKey !in page.items || page.items[Cart.CartKey] == Json(Arr([])) || page.items[Cart.CartKey] == Text("")
    ensures CheckoutSpec(page, gw) ==
      Outcome(Err(Error("Cart is empty")), page.(alerts := page.alerts + [Alert(Error("Cart is empty"))]), [])
  {
    assert StoredCart(page.items) == Ok(Arr([]));
  }

  /** A created cart without a checkout URL fails with no redirect. */
  lemma MissingUrlFails(page: Page, gw: Request -> Value, localCart: Value, cart: Value)
    requires StoredCart(page.items) == Ok(localCart)
    requires Prop(localCart, "length").Ok? && Prop(localCart, "length").value != Num(0)
    requires CreateCartSpec(page.items, gw, localCart).0 == Ok(cart)
    requires Prop(cart, "checkoutUrl").Ok? && !Truthy(Prop(cart, "checkoutUrl").value)
    ensures CheckoutSpec(page, gw).result == Err(Error("Failed to get checkout URL"))
    ensures CheckoutSpec(page, gw).page.href == page.href
    ensures CheckoutSpec(page, gw).page.alerts == page.alerts + [Alert(Error("Failed to get checkout URL"))]
  {
    var created := CreateCartSpec(page.items, gw, localCart);
    assert CheckoutUrl(created.0) == Err(Error("Failed to get checkout URL"));
    assert CheckoutAttempt(page.items, gw) == (Err(Error("Failed to get checkout URL")), created.1, created.2);
  }

  /** Success is exactly a redirect with no alert; failure is exactly an alert with no redirect. */
  lemma CheckoutAlertsOnlyOnFailure(page: Page, gw: Request -> Value)
    ensures var o := CheckoutSpec(page, gw);
      if o.result.Ok? then o.page.alerts == page.alerts
      else o.page.href == page.href && o.page.alerts == page.alerts + [Alert(o.result.error)]
  {
  }

  /** `checkoutExistingCart()` as written. A stored id whose cart still has a checkout URL redirects
      there; a missing cart or URL drops the stored id and falls back to checkout; any throw in the
      try block, including one from those fallback checkouts, runs checkout once more. */
  function ExistingCartSpec(page: Page, gw: Request -> Value): Outcome {
    if !(Cart.CartIdKey in page.items && CellTruthy(page.items[Cart.CartIdKey])) then
      Retried(CheckoutSpec(page, gw), gw)
    else
      var req := GetCart(page.items[Cart.CartIdKey]);
      match Prop(gw(req), "cart")
      case Err(_) => Prefixed([req], CheckoutSpec(page, gw))
      case Ok(cart) =>
        if !Truthy(cart) || !Truthy(Get(cart, "checkoutUrl")) then
          Prefixed([req], Retried(CheckoutSpec(page.(items := page.items - {Cart.CartIdKey}), gw), gw))
        else Outcome(Ok(()), page.(href := ToStr(Get(cart, "checkoutUrl"))), [req])
  }

  /** A checkout awaited inside the try block: if it throws, the catch runs checkout again. */
  function Retried(first: Outcome, gw: Request -> Value): Outcome {
    if first.result.Ok? then first else Prefixed(first.sent, CheckoutSpec(first.page, gw))
  }

  function Prefixed(before: seq<Request>, o: Outcome): Outcome {
    o.(sent := before + o.sent)
  }

  method CheckoutExistingCart(ls: LocalStorage, win: Window, gw: Request -> Value) returns (r: Result<()>, sent: seq<Request>)
    modifies ls, win
    ensures Outcome(r, Page(ls.items, win.href, win.alerts), sent) == ExistingCartSpec(old(Page(ls.items, win.href, win.alerts)), gw)
  {
    if !(Cart.CartIdKey in ls.items && CellTruthy(ls.items[Cart.CartIdKey])) {
      r, sent := CheckoutIn(ls, win, gw);
      if r.Err? {
        var again, more := CheckoutIn(ls, win, gw);
        r, sent := again, sent + more;
      }
      return;
    }
    var req := GetCart(ls.items[Cart.CartIdKey]);
    var cart := Prop(gw(req), "cart");
    if cart.Err? {
      r, sent := CheckoutIn(ls, win, gw);
      sent := [req] + sent;
      return;
    }
    if !Truthy(cart.value) || !Truthy(Get(cart.value, "checkoutUrl")) {
      ls.RemoveItem(Cart.CartIdKey);
      r, sent := CheckoutIn(ls, win, gw);
      if r.Err? {
        var again, more := CheckoutIn(ls, win, gw);
        r, sent := again, sent + more;
      }
      sent := [req] + sent;
      return;
    }
    win.href := ToStr(Get(cart.value, "checkoutUrl"));
    r, sent := Ok(()), [req];
  }

  /** With an empty stored cart and no stored id, checkoutExistingCart alerts the failure twice. */
  lemma EmptyCartAlertedTwice(page: Page, gw: Request -> Value)
    requires Cart.CartIdKey !in page.items && Cart.CartKey !in page.items
    ensures ExistingCartSpec(page, gw).page.alerts
      == page.alerts + [Alert(Error("Cart is empty")), Alert(Error("Cart is empty"))]
    ensures ExistingCartSpec(page, gw).result == Err(Error("Cart is empty"))
  {
    EmptyCartFails(page, gw);
    var once := page.(alerts := page.alerts + [Alert(Error("Cart is empty"))]);
    EmptyCartFails(once, gw);
  }

  /** A failing cart creation is sent twice. */
  lemma FailedCreationSentTwice(page: Page, gw: Request -> Value)
    requires Cart.CartIdKey !in page.items
    requires CheckoutSpec(page, gw).result.Err? && CheckoutSpec(page, gw).page.items == page.items
    ensures ExistingCartSpec(page, gw).sent == CheckoutSpec(page, gw).sent + CheckoutSpec(page, gw).sent
  {
    var first := CheckoutSpec(page, gw);
    assert CheckoutAttempt(first.page.items, gw) == CheckoutAttempt(page.items, gw);
  }

  /** checkoutExistingCart with the fallback checkout outside the catch, which is what the comment
      "Fallback to creating new cart" describes: only a failure to fetch the existing cart falls back,
      and a checkout runs at most once. */
  function ExistingCartFixedSpec(page: Page, gw: Request -> Value): Outcome {
    if !(Cart.CartIdKey in page.items && CellTruthy(page.items[Cart.CartIdKey])) then CheckoutSpec(page, gw)
    else
      var req := GetCart(page.items[Cart.CartIdKey]);
      match Prop(gw(req), "cart")
      case Err(_) => Prefixed([req], CheckoutSpec(page, gw))
      case Ok(cart) =>
        if !Truthy(cart) || !Truthy(Get(cart, "checkoutUrl")) then
          Prefixed([req], CheckoutSpec(page.(items := page.items - {Cart.CartIdKey}), gw))
        else Outcome(Ok(()), page.(href := ToStr(Get(cart, "checkoutUrl"))), [req])
  }

  /** The corrected flow shows at most one alert and, on success, goes to a checkout page. */
  lemma FixedAlertsAtMostOnce(page: Page, gw: Request -> Value)
    ensures var o := ExistingCartFixedSpec(page, gw);
      |o.page.alerts| <= |page.alerts| + 1 && o.page.alerts[..|page.alerts|] == page.alerts
      && (o.result.Ok? ==> o.page.alerts == page.alerts)
  {
    if Cart.CartIdKey in page.items && CellTruthy(page.items[Cart.CartIdKey]) {
      var req := GetCart(page.items[Cart.CartIdKey]);
      CheckoutAlertsOnlyOnFailure(page, gw);
      CheckoutAlertsOnlyOnFailure(page.(items := page.items - {Cart.CartIdKey}), gw);
    } else {
      CheckoutAlertsOnlyOnFailure(page, gw);
    }
  }

  /** A live existing cart is used without creating a new one. */
  lemma ExistingCartRedirects(page: Page, gw: Request -> Value, url: string)
    requires Cart.CartIdKey in page.items && CellTruthy(page.items[Cart.CartIdKey])
    requires gw(GetCart(page.items[Cart.CartIdKey])) == Obj(map["cart" := Obj(map["checkoutUrl" := Str(url)])])
    requires url != ""
    ensures ExistingCartSpec(page, gw) == Outcome(Ok(()), page.(href := url), [GetCart(page.items[Cart.CartIdKey])])
  {
  }

  /** A stale stored id is dropped before the fallback checkout, which then decides the outcome. */
  lemma StaleCartIdDropped(page: Page, gw: Request -> Value)
    requires Cart.CartIdKey in page.items && CellTruthy(page.items[Cart.CartIdKey])
    requires gw(GetCart(page.items[Cart.CartIdKey])) == Obj(map["cart" := Null])
    requires CheckoutSpec(page.(items := page.items - {Cart.CartIdKey}), gw).result.Ok?
    ensures ExistingCartSpec(page, gw) ==
      Prefixed([GetCart(page.items[Cart.CartIdKey])], CheckoutSpec(page.(items := page.items - {Cart.CartIdKey}), gw))
  {
  }
}
