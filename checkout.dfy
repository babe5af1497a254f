/**
 * The checkout page of one product: it loads the product, shows the 50/50
 * split of its price, mounts the payment buttons for the down payment, and
 * on approval builds the order record and picks the page to go to next.
 */
module Checkout {

  import opened Js
  import opened Browser

  /** What the page shows and charges for; `seller` is the object the seller panel reads. */
  datatype Product = Product(name: string, price: real, imageUrl: string, seller: Option<Record>)

  /** The stand-in product the page sets whenever loading fails; it has no `seller`. */
  const DemoProduct := Product(
    "Vintage Antique Item (Demo)", 1000.0,
    "https://via.placeholder.com/400x300?text=Demo+Product", None)

  /** The share of the price paid online. */
  const DownPaymentRatio: real := 0.5

  /**
   * The outcome of `GET /api/checkout/{id}`: the parsed body's `status` and
   * `data.image1_path` (None when missing or not a string), or a request or
   * parse that threw.
   */
  datatype FetchOutcome = Response(status: string, image1Path: Option<string>) | Thrown

  /** The payer the payment provider reports on approval. */
  datatype Approval = Approval(id: string, givenName: string, surname: Option<string>)

  /** The body posted to `/api/orders`. */
  datatype OrderRecord = OrderRecord(
    userId: string, productId: string, productName: string, price: real,
    downPayment: real, remainingPayment: real, transactionId: string, payerName: string)

  /** A rendered set of payment buttons; `amount` is what its createOrder asks for. */
  datatype Widget = Buttons(amount: real)

  /** The down payment is half the price: two of them make the price. */
  function DownPayment(price: real): (d: real)
    ensures d + d == price
    ensures price > 0.0 ==> 0.0 < d < price
  {
    price * DownPaymentRatio
  }

  /** The balance due at pickup: what the down payment leaves, equal to the down payment. */
  function RemainingPayment(price: real): (r: real)
    ensures DownPayment(price) + r == price
    ensures r == DownPayment(price)
  {
    price - DownPayment(price)
  }

  /** The amount handed to the payment provider when the buyer starts paying. */
  function ChargeAmount(p: Product): (a: real)
    ensures a + RemainingPayment(p.price) == p.price
    ensures p.price != 0.0 ==> a != p.price
    ensures p.price > 0.0 ==> a < p.price
  {
    DownPayment(p.price)
  }

  /**
   * The user id written into the order and used for the redirect: the
   * `customer_id` storage item if set, else the stored user's
   * `customer_id`, else "1". It is never empty.
   */
  function ResolveUserId(customerIdItem: Option<string>, user: Record): (id: string)
    ensures id != ""
    ensures Truthy(customerIdItem) ==> id == customerIdItem.value
    ensures !Truthy(customerIdItem) && Truthy(Field(user, "customer_id")) ==> id == user["customer_id"]
    ensures !Truthy(customerIdItem) && !Truthy(Field(user, "customer_id")) ==> id == "1"
  {
    OrDefault(Or(customerIdItem, Field(user, "customer_id")), "1")
  }

  /**
   * The same resolution read from storage: the `user` item (or "{}" when
   * it is missing or empty) goes through `parse`, which stands for `JSON.parse`.
   */
  function StoredUserId(storage: LocalStorage, parse: string -> Record): (id: string)
    reads storage
    requires parse("{}") == map[]
    ensures id != ""
    ensures !Truthy(storage.GetItem("customer_id")) && !Truthy(storage.GetItem("user")) ==> id == "1"
  {
    ResolveUserId(storage.GetItem("customer_id"), parse(OrDefault(storage.GetItem("user"), "{}")))
  }

  /** `given_name + " " + (surname || "")`. */
  function PayerName(a: Approval): (n: string)
    ensures |n| > |a.givenName|
    ensures n[..|a.givenName|] == a.givenName && n[|a.givenName|] == ' '
    ensures !Truthy(a.surname) ==> n == a.givenName + " "
    ensures Truthy(a.surname) ==> n == a.givenName + " " + a.surname.value
  {
    a.givenName + " " + OrDefault(a.surname, "")
  }

  /** The order recorded after an approved down payment. */
  function BuildOrder(productId: string, p: Product, userId: string, a: Approval): (o: OrderRecord)
    ensures o.userId == userId && o.productId == productId && o.transactionId == a.id
    ensures o.productName == p.name && o.price == p.price
    ensures o.downPayment == ChargeAmount(p)
    ensures o.downPayment + o.remainingPayment == o.price
    ensures o.downPayment == o.remainingPayment
    ensures o.payerName == PayerName(a)
  {
    var down := DownPayment(p.price);
    OrderRecord(userId, productId, p.name, p.price, down, p.price - down, a.id, PayerName(a))
  }

  /** Where the page goes two seconds after approval. */
  function OrdersPath(userId: string): (path: string)
    ensures StartsWith(path, "/items/") && path[|"/items/"|..] == userId
  {
    StartsWithConcat("/items/", userId);
    "/items/" + userId
  }

  /** The page's own state: the product (unset until loading settles) and whether payment completed. */
  datatype PageState = PageState(product: Option<Product>, paymentCompleted: bool)

  const Initial := PageState(None, false)

  /** The events that change the page's state. */
  datatype Event = Fetched(outcome: FetchOutcome) | Approved

  /** The product after loading settles. A success whose `image1_path` is a string sets nothing;
      a missing path makes `startsWith` throw, which lands in the demo branch like any failure. */
  function AfterFetch(product: Option<Product>, outcome: FetchOutcome): (r: Option<Product>)
    ensures outcome.Thrown? ==> r == Some(DemoProduct)
    ensures outcome.Response? && outcome.status != "success" ==> r == Some(DemoProduct)
    ensures outcome.Response? && outcome.status == "success" ==>
              r == if outcome.image1Path.Some? then product else Some(DemoProduct)
  {
    match outcome
    case Thrown => Some(DemoProduct)
    case Response(status, path) =>
      if status == "success" && path.Some? then product else Some(DemoProduct)
  }

  function Step(s: PageState, e: Event): (t: PageState)
    ensures e.Approved? ==> t == s.(paymentCompleted := true)
    ensures e.Fetched? ==> t.paymentCompleted == s.paymentCompleted
    ensures t.product == s.product || t.product == Some(DemoProduct)
  {
    match e
    case Fetched(outcome) => s.(product := AfterFetch(s.product, outcome))
    case Approved => s.(paymentCompleted := true)
  }

  /**
   * The state after a sequence of events, oldest first: payment is complete
   * exactly when it was or some event approved it, and the product is the
   * one it started with or the demo product.
   */
  function Run(s: PageState, es: seq<Event>): (t: PageState)
    ensures t.paymentCompleted <==> s.paymentCompleted || Approved in es
    ensures t.product == s.product || t.product == Some(DemoProduct)
    decreases |es|
  {
    if es == [] then s
    else
      assert es == [es[0]] + es[1..];
      Run(Step(s, es[0]), es[1..])
  }

  /** What a render of the page produces. */
  datatype View = Loading | RenderError | CheckoutView(downPayment: real, remainingPayment: real)

  /**
   * The render: "Loading..." without a product; a product without `seller`
   * makes reading `product.seller.name` throw, so nothing is committed;
   * otherwise the checkout view with its two payments and the button container.
   */
  function ViewOf(s: PageState): (v: View)
    ensures v.Loading? <==> s.product.None?
    ensures v.RenderError? <==> s.product.Some? && s.product.value.seller.None?
    ensures v.CheckoutView? ==>
              v.downPayment == ChargeAmount(s.product.value)
              && v.downPayment + v.remainingPayment == s.product.value.price
  {
    match s.product
    case None => Loading
    case Some(p) =>
      if p.seller.None? then RenderError
      else CheckoutView(DownPayment(p.price), RemainingPayment(p.price))
  }

  /** The buttons are rendered only with a product, the provider's script loaded, a
      container present and the payment not yet completed. */
  function MountGuard(s: PageState, sdkLoaded: bool, containerPresent: bool): (b: bool)
    ensures b ==> s.product.Some? && ChargeAmount(s.product.value) + RemainingPayment(s.product.value.price) == s.product.value.price
    ensures s.paymentCompleted || !containerPresent || !sdkLoaded ==> !b
  {
    s.product.Some? && sdkLoaded && containerPresent && !s.paymentCompleted
  }

  /** Once payment completes no event resets it, so no later mount passes the guard. */
  lemma {:induction false} CompletedIsFinal(s: PageState, es: seq<Event>, sdkLoaded: bool, containerPresent: bool)
    requires s.paymentCompleted
    ensures Run(s, es).paymentCompleted
    ensures !MountGuard(Run(s, es), sdkLoaded, containerPresent)
    decreases |es|
  {
    if es != [] {
      CompletedIsFinal(Step(s, es[0]), es[1..], sdkLoaded, containerPresent);
    }
  }

  /** Loads that succeed with an image path never set the product, so the buttons never mount. */
  lemma {:induction false} SuccessLeavesProductUnset(s: PageState, es: seq<Event>, sdkLoaded: bool, containerPresent: bool)
    requires s.product.None?
    requires forall i :: 0 <= i < |es| ==>
               es[i].Fetched? && es[i].outcome.Response? && es[i].outcome.status == "success"
               && es[i].outcome.image1Path.Some?
    ensures Run(s, es).product.None?
    ensures !MountGuard(Run(s, es), sdkLoaded, containerPresent)
    decreases |es|
  {
    if es != [] {
      SuccessLeavesProductUnset(Step(s, es[0]), es[1..], sdkLoaded, containerPresent);
    }
  }

  /**
   * A failed or thrown load sets the demo product, whose render throws, so
   * no container is committed and the buttons do not mount.
   */
  lemma FailedLoadCrashesRender(outcome: FetchOutcome, sdkLoaded: bool)
    requires outcome.Thrown? || outcome.status != "success"
    ensures Step(Initial, Fetched(outcome)).product == Some(DemoProduct)
    ensures ViewOf(Step(Initial, Fetched(outcome))) == RenderError
    ensures !MountGuard(Step(Initial, Fetched(outcome)), sdkLoaded, ViewOf(Step(Initial, Fetched(outcome))).CheckoutView?)
  {
  }

  /**
   * From the initial state no sequence of loads and approvals reaches the
   * checkout view: the product stays unset or becomes the demo product, which
   * has no seller. The container is therefore never committed, and the buttons
   * never mount.
   */
  lemma NoButtonsFromInitial(es: seq<Event>, sdkLoaded: bool)
    ensures !ViewOf(Run(Initial, es)).CheckoutView?
    ensures !MountGuard(Run(Initial, es), sdkLoaded, ViewOf(Run(Initial, es)).CheckoutView?)
  {
  }

  /** The element the buttons render into; its children are replaced in place. */
  class Container {
    var widgets: seq<Widget>

    constructor ()
      ensures widgets == []
    {
      widgets := [];
    }

    /** `innerHTML = ''`. */
    method Clear()
      modifies this
      ensures widgets == []
    {
      widgets := [];
    }

    /** `Buttons(...).render(container)`: adds a rendering beside what is there. */
    method Render(w: Widget)
      modifies this
      ensures widgets == old(widgets) + [w]
    {
      widgets := widgets + [w];
    }
  }

  /** The mounted page for route `/checkout/{productId}`. */
  class CheckoutPage {
    const productId: string
    var product: Option<Product>
    var paymentCompleted: bool
    /** `paypalRef.current`: the committed button container, or null. */
    var paypalRef: Container?

    constructor (id: string)
      ensures productId == id && State() == Initial && paypalRef == null
    {
      productId := id;
      product := None;
      paymentCompleted := false;
      paypalRef := null;
    }

    function State(): PageState
      reads this
    {
      PageState(product, paymentCompleted)
    }

    /** The load effect settling with `outcome`. */
    method OnFetch(outcome: FetchOutcome)
      modifies this
      ensures State() == Step(old(State()), Fetched(outcome))
      ensures paypalRef == old(paypalRef)
    {
      match outcome {
        case Thrown =>
          product := Some(DemoProduct);
        case Response(status, path) =>
          if status == "success" {
            if path.None? {
              product := Some(DemoProduct);
            }
          } else {
            product := Some(DemoProduct);
          }
      }
    }

    /**
     * A render and its commit: the ref is attached to the view's container
     * `div` only when the checkout view is committed; after "Loading..." or a
     * render that throws there is no container.
     */
    method Commit(div: Container) returns (view: View)
      modifies this
      ensures view == ViewOf(State()) && State() == old(State())
      ensures paypalRef == if view.CheckoutView? then div else null
    {
      view := ViewOf(State());
      paypalRef := if view.CheckoutView? then div else null;
    }

    /**
     * The mount effect: when the guard passes, the committed container is
     * emptied and exactly one set of buttons, charging the down payment, is
     * rendered into it.
     */
    method Mount(sdkLoaded: bool) returns (mounted: bool)
      modifies paypalRef
      ensures mounted == MountGuard(State(), sdkLoaded, paypalRef != null)
      ensures mounted ==> paypalRef.widgets == [Buttons(ChargeAmount(product.value))]
      ensures !mounted && paypalRef != null ==> paypalRef.widgets == old(paypalRef.widgets)
    {
      mounted := product.Some? && sdkLoaded && !paymentCompleted && paypalRef != null;
      if mounted {
        paypalRef.Clear();
        var firstDownPayment := product.value.price * 0.5;
        paypalRef.Render(Buttons(firstDownPayment));
      }
    }

    /**
     * Approval of the payment: the page records completion, builds the
     * order from the stored user id and returns it with the redirect path,
     * which is built from the same id.
     */
    method Approve(details: Approval, storage: LocalStorage, parse: string -> Record)
      returns (order: OrderRecord, redirect: string)
      requires product.Some?
      requires parse("{}") == map[]
      modifies this
      ensures State() == Step(old(State()), Approved)
      ensures paypalRef == old(paypalRef)
      ensures order == BuildOrder(productId, product.value, StoredUserId(storage, parse), details)
      ensures redirect == OrdersPath(order.userId)
    {
      paymentCompleted := true;
      var userId := StoredUserId(storage, parse);
      order := BuildOrder(productId, product.value, userId, details);
      redirect := OrdersPath(StoredUserId(storage, parse));
    }
  }

  /**
   * The page's own order of events after a failed load: first render and
   * commit, the load settling, the re-render and commit, then the mount
   * effect. No buttons mount and the container is left as it was.
   */
  method FailedLoadNeverMounts(id: string, div: Container, outcome: FetchOutcome, sdkLoaded: bool)
    returns (mounted: bool)
    requires outcome.Thrown? || outcome.status != "success"
    modifies div
    ensures !mounted
    ensures div.widgets == old(div.widgets)
  {
    var page := new CheckoutPage(id);
    var first := page.Commit(div);
    page.OnFetch(outcome);
    var second := page.Commit(div);
    mounted := page.Mount(sdkLoaded);
  }
}
