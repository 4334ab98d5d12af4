/**
 * The checkout computation: validate the request's items, sum their
 * quantities, then fold over them looking up each product's price, stopping
 * with a 404 at the first unknown id. Thrown errors are turned into an error
 * response by HandleAPIError. Reading the request, logging and the order id
 * are not modelled.
 */
module Checkout {
  import opened Wrappers
  import opened Catalog
  import opened ErrorHandling
  import Cart

  /** A validated request line. */
  datatype Line = Line(productId: int, quantity: int)

  /** The JSON body sent back (the order id is not modelled). */
  datatype CheckoutResponse =
    | OrderPlaced(success: bool, message: string, totalItems: int, totalAmount: int)
    | ErrorResponse(error: string, status: int)

  const OrderPlacedMessage := "Order placed successfully!"

  /** The catch clause: the reply HandleAPIError gives for `e`. */
  function Respond(e: Thrown): (r: CheckoutResponse)
    ensures r.ErrorResponse?
    ensures e.ThrownAPIError? ==> r == ErrorResponse(e.apiError.message, e.apiError.statusCode)
    ensures !e.ThrownAPIError? ==> r.status == 500 && r.error in {"Internal server error", "Unknown error occurred"}
  {
    var reply := HandleAPIError(e);
    ErrorResponse(reply.message, reply.statusCode)
  }

  /** The decimal digit for 0..9. */
  function DigitChar(d: int): (c: char)
    requires 0 <= d < 10
    ensures '0' <= c <= '9' && c as int - '0' as int == d
  {
    "0123456789"[d]
  }

  /** Decimal text of a natural number, as a template literal prints it. */
  function NatToString(n: nat): (r: string)
    ensures |r| > 0
    ensures forall i :: 0 <= i < |r| ==> '0' <= r[i] <= '9'
    decreases n
  {
    if n < 10 then [DigitChar(n)] else NatToString(n / 10) + [DigitChar(n % 10)]
  }

  /** The number a string of decimal digits denotes, read left to right. */
  function DigitsValue(s: string): nat
    requires forall i :: 0 <= i < |s| ==> '0' <= s[i] <= '9'
  {
    if s == [] then 0 else 10 * DigitsValue(s[..|s| - 1]) + (s[|s| - 1] as int - '0' as int)
  }

  /** Reading the printed digits back gives the number: the decimal text is exact. */
  lemma {:induction false} NatToStringRoundTrip(n: nat)
    ensures DigitsValue(NatToString(n)) == n
    decreases n
  {
    if n >= 10 {
      var s := NatToString(n);
      assert s[..|s| - 1] == NatToString(n / 10);
      NatToStringRoundTrip(n / 10);
    }
  }

  /** Decimal text of an integer, with a leading '-' when negative. */
  function IntToString(i: int): (r: string)
    ensures |r| > 0
    ensures i >= 0 ==> forall k :: 0 <= k < |r| ==> '0' <= r[k] <= '9'
    ensures i < 0 ==> r[0] == '-' && forall k :: 1 <= k < |r| ==> '0' <= r[k] <= '9'
  {
    if i < 0 then "-" + NatToString(-i) else NatToString(i)
  }

  /** The 404 message for an unknown product id. */
  function NotFoundMessage(id: int): (r: string)
    ensures |r| == 26 + |IntToString(id)|
    ensures r[..16] == "Product with ID " && r[|r| - 10..] == " not found"
    ensures r[16..|r| - 10] == IntToString(id)
  {
    "Product with ID " + IntToString(id) + " not found"
  }

  /** The numbers a validated element carries. */
  function LineOf(x: JsItem): Line
    requires ItemOk(x)
  {
    Line(x.productId.value, x.quantity.value)
  }

  /** The lines of a validated items array, in order. */
  function ToLines(xs: seq<JsItem>): (lines: seq<Line>)
    requires forall i :: 0 <= i < |xs| ==> ItemOk(xs[i])
    ensures |lines| == |xs|
    ensures forall i :: 0 <= i < |xs| ==> lines[i] == LineOf(xs[i])
  {
    if xs == [] then [] else [LineOf(xs[0])] + ToLines(xs[1..])
  }

  /** `totalItems`: the sum of the line quantities. */
  function SumQuantities(lines: seq<Line>): (r: int)
    ensures (forall i :: 0 <= i < |lines| ==> lines[i].quantity > 0) ==> r >= |lines|
  {
    if lines == [] then 0 else lines[0].quantity + SumQuantities(lines[1..])
  }

  /** Every line names a product of `catalog`. */
  predicate AllKnown(catalog: seq<Product>, lines: seq<Line>) {
    forall i :: 0 <= i < |lines| ==> FindById(catalog, lines[i].productId).Some?
  }

  /** Reference amount: the sum of catalog price times quantity over the lines. */
  function ExpectedAmount(catalog: seq<Product>, lines: seq<Line>): int
    requires AllKnown(catalog, lines)
  {
    if lines == [] then 0
    else FindById(catalog, lines[0].productId).value.price * lines[0].quantity + ExpectedAmount(catalog, lines[1..])
  }

  /**
   * `totalAmount`: the reduce that starts from `acc`, adds price times
   * quantity per line and throws at the first id `catalog` does not know
   * (Failure carries that id).
   */
  function AmountFold(catalog: seq<Product>, lines: seq<Line>, acc: int): (r: Result<int, int>)
    ensures r.Success? <==> AllKnown(catalog, lines)
    ensures r.Success? ==> r.value == acc + ExpectedAmount(catalog, lines)
    ensures r.Failure? ==>
      exists k :: 0 <= k < |lines| && lines[k].productId == r.error && FindById(catalog, r.error).None? &&
        forall j :: 0 <= j < k ==> FindById(catalog, lines[j].productId).Some?
  {
    if lines == [] then Success(acc)
    else match FindById(catalog, lines[0].productId)
      case None => Failure(lines[0].productId)
      case Some(p) =>
        var r := AmountFold(catalog, lines[1..], acc + p.price * lines[0].quantity);
        AllKnownCons(catalog, lines);
        FirstUnknownCons(catalog, lines, r);
        r
  }

  lemma AllKnownCons(catalog: seq<Product>, lines: seq<Line>)
    requires |lines| > 0 && FindById(catalog, lines[0].productId).Some?
    ensures AllKnown(catalog, lines) <==> AllKnown(catalog, lines[1..])
  {
    assert forall i :: 1 <= i < |lines| ==> lines[i] == lines[1..][i - 1];
  }

  lemma FirstUnknownCons(catalog: seq<Product>, lines: seq<Line>, r: Result<int, int>)
    requires |lines| > 0 && FindById(catalog, lines[0].productId).Some?
    requires r.Failure? ==>
      exists k :: 0 <= k < |lines[1..]| && lines[1..][k].productId == r.error && FindById(catalog, r.error).None? &&
        forall j :: 0 <= j < k ==> FindById(catalog, lines[1..][j].productId).Some?
    ensures r.Failure? ==>
      exists k :: 0 <= k < |lines| && lines[k].productId == r.error && FindById(catalog, r.error).None? &&
        forall j :: 0 <= j < k ==> FindById(catalog, lines[j].productId).Some?
  {
    if r.Failure? {
      var k :| 0 <= k < |lines[1..]| && lines[1..][k].productId == r.error && FindById(catalog, r.error).None? &&
        forall j :: 0 <= j < k ==> FindById(catalog, lines[1..][j].productId).Some?;
      assert lines[k + 1] == lines[1..][k];
      assert forall j :: 1 <= j < k + 1 ==> lines[j] == lines[1..][j - 1];
    }
  }

  /** The body of POST between reading the request and sending the response. */
  function Checkout(input: JsInput): (r: CheckoutResponse)
    ensures r.OrderPlaced? ==> ValidateCartItems(input).Valid? && r.success && r.message == OrderPlacedMessage
    ensures r.ErrorResponse? ==> r.status in {400, 404, 500}
    ensures ValidateCartItems(input).Invalid? ==> r == ErrorResponse(ValidateCartItems(input).error, 400)
  {
    match ValidateCartItems(input)
    case Invalid(error) =>
      Respond(ThrownAPIError(NewAPIError(if error != "" then error else "Invalid cart items", 400)))
    case TypeError =>
      Respond(ThrownError("Cannot read properties of null"))
    case Valid =>
      var lines := ToLines(input.elements);
      var totalItems := SumQuantities(lines);
      match AmountFold(Products, lines, 0)
      case Failure(id) => Respond(ThrownAPIError(NewAPIError(NotFoundMessage(id), 404)))
      case Success(totalAmount) => OrderPlaced(true, OrderPlacedMessage, totalItems, totalAmount)
  }

  // ---------------------------------------------------------------------
  // Properties of checkout

  /** A request the validator rejects gets 400 with the validator's message, whatever its ids. */
  lemma InvalidRequestIs400(input: JsInput)
    requires ValidateCartItems(input).Invalid?
    ensures Checkout(input) == ErrorResponse(ValidateCartItems(input).error, 400)
  {
  }

  /** A null element makes validation throw, which is reported as a generic 500. */
  lemma NullItemIs500(input: JsInput)
    requires ValidateCartItems(input).TypeError?
    ensures Checkout(input) == ErrorResponse("Internal server error", 500)
  {
  }

  /**
   * Checkout succeeds exactly when the request is valid and every id is in
   * the catalog; it then reports the sum of quantities and the sum of catalog
   * price times quantity.
   */
  lemma CheckoutSuccess(input: JsInput)
    ensures Checkout(input).OrderPlaced? <==>
      ValidateCartItems(input) == Valid && AllKnown(Products, ToLines(input.elements))
    ensures Checkout(input).OrderPlaced? ==>
      Checkout(input) == OrderPlaced(true, OrderPlacedMessage,
        SumQuantities(ToLines(input.elements)), ExpectedAmount(Products, ToLines(input.elements)))
  {
  }

  /**
   * A valid request whose line `k` is the first with an id outside the
   * catalog's 1..10 fails with 404 naming that id, and no totals are returned.
   */
  lemma UnknownProductIs404(xs: seq<JsItem>, k: int)
    requires forall i :: 0 <= i < |xs| ==> ItemOk(xs[i])
    requires 0 <= k < |xs| && !(1 <= LineOf(xs[k]).productId <= 10)
    requires forall j :: 0 <= j < k ==> 1 <= LineOf(xs[j]).productId <= 10
    ensures Checkout(JsArray(xs)) == ErrorResponse(NotFoundMessage(LineOf(xs[k]).productId), 404)
  {
    var lines := ToLines(xs);
    forall j | 0 <= j <= k ensures
      lines[j] == LineOf(xs[j]) &&
      (FindById(Products, lines[j].productId).Some? <==> j < k)
    {
      GetProductByIdSucceedsExactlyOnCatalogIds(lines[j].productId);
    }
    AmountFoldStopsAtFirstUnknown(Products, lines, 0, k);
    assert ValidateCartItems(JsArray(xs)) == Valid;
  }

  /** The fold fails with the id of the first unknown line. */
  lemma AmountFoldStopsAtFirstUnknown(catalog: seq<Product>, lines: seq<Line>, acc: int, k: int)
    requires 0 <= k < |lines| && FindById(catalog, lines[k].productId).None?
    requires forall j :: 0 <= j < k ==> FindById(catalog, lines[j].productId).Some?
    ensures AmountFold(catalog, lines, acc) == Failure(lines[k].productId)
  {
    var r := AmountFold(catalog, lines, acc);
    var k' :| 0 <= k' < |lines| && lines[k'].productId == r.error && FindById(catalog, r.error).None? &&
      forall j :: 0 <= j < k' ==> FindById(catalog, lines[j].productId).Some?;
    assert k' == k;
  }

  /** An empty cart and a missing items array are rejected with their own messages. */
  lemma EmptyAndNonArrayRequests()
    ensures Checkout(JsArray([])) == ErrorResponse("Cart cannot be empty", 400)
    ensures Checkout(NotArray) == ErrorResponse("Items must be an array", 400)
  {
  }

  /** Two units of product 1 (1299 rupees each) cost 2598. */
  lemma TwoOfProductOne()
    ensures Checkout(JsArray([Obj(Number(1), Number(2))])) == OrderPlaced(true, OrderPlacedMessage, 2, 2598)
  {
    ProductOnePrice();
    var lines := ToLines([Obj(Number(1), Number(2))]);
    assert lines == [Line(1, 2)];
  }

  /** Product 9999 is not in the catalog, so checkout fails with 404. */
  lemma UnknownProductExample()
    ensures Checkout(JsArray([Obj(Number(9999), Number(1))])) ==
      ErrorResponse("Product with ID 9999 not found", 404)
  {
    var xs := [Obj(Number(9999), Number(1))];
    assert ItemOk(xs[0]);
    UnknownProductIs404(xs, 0);
    NotFoundMessageExample();
  }

  lemma NotFoundMessageExample()
    ensures NotFoundMessage(9999) == "Product with ID 9999 not found"
  {
    assert NatToString(9) == "9";
    assert NatToString(99) == "99";
    assert NatToString(999) == "999";
  }

  // ---------------------------------------------------------------------
  // The client's request and the cart's totals

  /** The request the cart page sends: each line projected to (product id, quantity). */
  function CheckoutRequest(items: seq<Cart.CartItem>): (input: JsInput)
    ensures input.JsArray? && |input.elements| == |items|
    ensures forall i :: 0 <= i < |items| ==>
      input.elements[i] == Obj(Number(items[i].product.id), Number(items[i].quantity))
  {
    if items == [] then JsArray([])
    else
      var rest := CheckoutRequest(items[1..]);
      JsArray([Obj(Number(items[0].product.id), Number(items[0].quantity))] + rest.elements)
  }

  /** Every cart line's product id is in `catalog`, at the price the line carries. */
  predicate PricedFromCatalog(catalog: seq<Product>, items: seq<Cart.CartItem>) {
    forall i :: 0 <= i < |items| ==>
      FindById(catalog, items[i].product.id).Some? &&
      FindById(catalog, items[i].product.id).value.price == items[i].product.price
  }

  /** The server's sums over projected lines equal the cart's own sums. */
  lemma {:induction false} ProjectedSums(catalog: seq<Product>, items: seq<Cart.CartItem>, lines: seq<Line>)
    requires |lines| == |items|
    requires forall i :: 0 <= i < |items| ==> lines[i] == Line(items[i].product.id, items[i].quantity)
    requires PricedFromCatalog(catalog, items)
    ensures SumQuantities(lines) == Cart.ItemCount(items)
    ensures AllKnown(catalog, lines) && ExpectedAmount(catalog, lines) == Cart.TotalPrice(items)
  {
    if items != [] {
      assert forall i :: 0 <= i < |items[1..]| ==> lines[1..][i] == lines[i + 1] && items[1..][i] == items[i + 1];
      ProjectedSums(catalog, items[1..], lines[1..]);
      assert FindById(catalog, lines[0].productId).value.price == items[0].product.price;
    }
  }

  /**
   * Checking out a non-empty, well-formed cart whose lines carry catalog ids
   * at catalog prices places the order with exactly the cart's itemCount and
   * total.
   */
  lemma CheckoutAgreesWithCart(s: Cart.CartState)
    requires Cart.WellFormed(s) && |s.items| > 0
    requires forall i :: 0 <= i < |s.items| ==>
      1 <= s.items[i].product.id <= 10 && Products[s.items[i].product.id - 1].price == s.items[i].product.price
    ensures Checkout(CheckoutRequest(s.items)) == OrderPlaced(true, OrderPlacedMessage, s.itemCount, s.total)
  {
    var input := CheckoutRequest(s.items);
    forall i | 0 <= i < |s.items|
      ensures ItemOk(input.elements[i])
      ensures FindById(Products, s.items[i].product.id).Some?
      ensures FindById(Products, s.items[i].product.id).value.price == s.items[i].product.price
    {
      GetProductByIdSucceedsExactlyOnCatalogIds(s.items[i].product.id);
    }
    var lines := ToLines(input.elements);
    ProjectedSums(Products, s.items, lines);
    CheckoutSuccess(input);
  }
}
