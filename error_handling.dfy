/**
 * Checkout request validation and the mapping from thrown errors to an
 * error message and HTTP status. The validator works on untyped JSON, so its
 * input is modelled as a small JSON-like datatype.
 */
module ErrorHandling {
  import opened Wrappers

  /** The status an APIError gets when none is given. */
  const DefaultStatusCode := 500

  /** An API error: a message, an HTTP status and an optional code. */
  datatype APIError = APIError(message: string, statusCode: int, code: Option<string>)

  /** `new APIError(message, statusCode?, code?)`, with the status defaulting to 500. */
  function NewAPIError(message: string, statusCode: int := DefaultStatusCode, code: Option<string> := None): (r: APIError)
    ensures r.message == message && r.statusCode == statusCode && r.code == code
    ensures HandleAPIError(ThrownAPIError(r)) == ErrorReply(message, statusCode)
  {
    APIError(message, statusCode, code)
  }

  /** What a `catch` clause can receive. */
  datatype Thrown =
    | ThrownAPIError(apiError: APIError)   // an instance of APIError
    | ThrownError(message: string)         // any other instance of Error (a TypeError, say)
    | ThrownNonError                       // a thrown value that is not an Error

  /** The message and status sent back for a caught error. */
  datatype ErrorReply = ErrorReply(message: string, statusCode: int)

  /**
   * An APIError keeps its own message and status; anything else becomes a
   * generic 500 whose message does not depend on what was thrown.
   */
  function HandleAPIError(e: Thrown): (r: ErrorReply)
    ensures e.ThrownAPIError? ==> r.message == e.apiError.message && r.statusCode == e.apiError.statusCode
    ensures !e.ThrownAPIError? ==> r.statusCode == 500
    ensures !e.ThrownAPIError? ==> r.message in {"Internal server error", "Unknown error occurred"}
  {
    match e
    case ThrownAPIError(err) => ErrorReply(err.message, err.statusCode)
    case ThrownError(_) => ErrorReply("Internal server error", 500)
    case ThrownNonError => ErrorReply("Unknown error occurred", 500)
  }

  /** An APIError built without a status is reported as a 500 with its own message. */
  lemma DefaultStatusIs500(message: string)
    ensures NewAPIError(message).statusCode == 500
    ensures HandleAPIError(ThrownAPIError(NewAPIError(message))) == ErrorReply(message, 500)
  {
  }

  /** Two non-API errors with different messages are reported identically. */
  lemma OtherErrorsDoNotLeak(m1: string, m2: string)
    ensures HandleAPIError(ThrownError(m1)) == HandleAPIError(ThrownError(m2)) == ErrorReply("Internal server error", 500)
    ensures HandleAPIError(ThrownNonError) == ErrorReply("Unknown error occurred", 500)
  {
  }

  // ---------------------------------------------------------------------
  // validateCartItems

  /** A property of a request line as read from JSON. */
  datatype Field =
    | Absent              // the property is missing (undefined)
    | Number(value: int)  // a number
    | NonNumber           // present but not a number (string, boolean, null, object, array)

  /** An element of the items array. */
  datatype JsItem =
    | Nullish                                   // null or undefined: reading a property of it throws
    | Obj(productId: Field, quantity: Field)    // any other value; a missing property reads as Absent

  /** The `items` property of the request body. */
  datatype JsInput = NotArray | JsArray(elements: seq<JsItem>)

  /** The validator's outcome; TypeError stands for the exception reading a property of null throws. */
  datatype Validation = Valid | Invalid(error: string) | TypeError

  /**
   * `!productId || typeof productId !== 'number'` rejects: the only falsy
   * number is 0 here, so negative ids pass.
   */
  predicate ProductIdOk(f: Field) {
    f.Number? && f.value != 0
  }

  /** `!quantity || typeof quantity !== 'number' || quantity <= 0` rejects. */
  predicate QuantityOk(f: Field) {
    f.Number? && f.value > 0
  }

  /** An element that passes both checks. */
  predicate ItemOk(x: JsItem) {
    x.Obj? && ProductIdOk(x.productId) && QuantityOk(x.quantity)
  }

  /** The verdict for one element: the product id is checked before the quantity. */
  function CheckItem(x: JsItem): (v: Validation)
    ensures v == Valid <==> ItemOk(x)
    ensures v.Invalid? ==> x.Obj? && v.error == (if ProductIdOk(x.productId) then "Invalid quantity" else "Invalid product ID")
    ensures v.TypeError? <==> x.Nullish?
  {
    match x
    case Nullish => TypeError
    case Obj(productId, quantity) =>
      if !ProductIdOk(productId) then Invalid("Invalid product ID")
      else if !QuantityOk(quantity) then Invalid("Invalid quantity")
      else Valid
  }

  /** The early-return loop: the verdict of the first element that fails, or Valid. */
  function CheckItems(xs: seq<JsItem>): (v: Validation)
    ensures v == Valid <==> forall i :: 0 <= i < |xs| ==> ItemOk(xs[i])
    ensures v != Valid ==>
      exists k :: 0 <= k < |xs| && v == CheckItem(xs[k]) && forall j :: 0 <= j < k ==> ItemOk(xs[j])
  {
    if xs == [] then Valid
    else if CheckItem(xs[0]) != Valid then CheckItem(xs[0])
    else
      var v := CheckItems(xs[1..]);
      FirstFailureCons(xs, v);
      v
  }

  lemma FirstFailureCons(xs: seq<JsItem>, v: Validation)
    requires |xs| > 0 && ItemOk(xs[0])
    requires v != Valid ==>
      exists k :: 0 <= k < |xs[1..]| && v == CheckItem(xs[1..][k]) && forall j :: 0 <= j < k ==> ItemOk(xs[1..][j])
    ensures v != Valid ==>
      exists k :: 0 <= k < |xs| && v == CheckItem(xs[k]) && forall j :: 0 <= j < k ==> ItemOk(xs[j])
  {
    if v != Valid {
      var k :| 0 <= k < |xs[1..]| && v == CheckItem(xs[1..][k]) && forall j :: 0 <= j < k ==> ItemOk(xs[1..][j]);
      assert xs[k + 1] == xs[1..][k];
      assert forall j :: 1 <= j < k + 1 ==> xs[j] == xs[1..][j - 1];
    }
  }

  /** validateCartItems: shape, emptiness, then the items in order. */
  function ValidateCartItems(input: JsInput): (v: Validation)
    ensures input.NotArray? ==> v == Invalid("Items must be an array")
    ensures input.JsArray? && |input.elements| == 0 ==> v == Invalid("Cart cannot be empty")
    ensures v == Valid <==>
      input.JsArray? && |input.elements| > 0 && forall i :: 0 <= i < |input.elements| ==> ItemOk(input.elements[i])
    ensures v.Invalid? ==> |v.error| > 0
  {
    match input
    case NotArray => Invalid("Items must be an array")
    case JsArray(xs) =>
      if |xs| == 0 then Invalid("Cart cannot be empty")
      else CheckItems(xs)
  }

  /**
   * A non-empty array is rejected with the verdict of its first failing
   * element; every element before it passes.
   */
  lemma ValidateReportsFirstFailure(xs: seq<JsItem>, k: int)
    requires 0 <= k < |xs| && !ItemOk(xs[k])
    requires forall j :: 0 <= j < k ==> ItemOk(xs[j])
    ensures ValidateCartItems(JsArray(xs)) == CheckItem(xs[k])
  {
    var v := CheckItems(xs);
    var k' :| 0 <= k' < |xs| && v == CheckItem(xs[k']) && forall j :: 0 <= j < k' ==> ItemOk(xs[j]);
    assert k' == k;
  }

  /** A zero id is rejected, a negative id is not, and the id is checked before the quantity. */
  lemma ProductIdTruthiness()
    ensures ValidateCartItems(JsArray([Obj(Number(0), Number(1))])) == Invalid("Invalid product ID")
    ensures ValidateCartItems(JsArray([Obj(Number(-5), Number(1))])) == Valid
    ensures ValidateCartItems(JsArray([Obj(Absent, Number(0))])) == Invalid("Invalid product ID")
    ensures ValidateCartItems(JsArray([Obj(Number(3), NonNumber)])) == Invalid("Invalid quantity")
  {
  }
}
