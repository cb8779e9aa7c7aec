/** The checkout endpoint: the body is validated with Python truthiness and
    turned into a one-item payment session request for the payment
    provider. The provider itself is a parameter. */
module Checkout {
  import opened Wrappers

  /** The JSON values a field of the request body can hold in this model. */
  datatype Json = JNull | JBool(b: bool) | JInt(i: int) | JStr(s: string)

  /** Python truthiness of a decoded JSON value: the falsy values are
      exactly None, False, 0 and the empty string. */
  predicate Truthy(v: Json)
    ensures Truthy(v) <==> v !in {JNull, JBool(false), JInt(0), JStr("")}
  {
    match v
    case JNull => false
    case JBool(b) => b
    case JInt(i) => i != 0
    case JStr(s) => s != ""
  }

  /** `body.get(key)`: a missing key reads as None. */
  function Get(body: map<string, Json>, key: string): (v: Json)
    ensures key !in body ==> v == JNull
    ensures key in body ==> v == body[key]
  {
    if key in body then body[key] else JNull
  }

  function DigitChar(d: nat): (c: char)
    requires d < 10
    ensures '0' <= c <= '9' && c as int - '0' as int == d
  {
    ('0' as int + d) as char
  }

  /** Python's `str(n)` of a non-negative integer: its decimal digits, with
      no leading zero. */
  function Decimal(n: nat): (r: string)
    ensures r != []
    ensures forall i :: 0 <= i < |r| ==> '0' <= r[i] <= '9'
    ensures r[0] == '0' ==> r == "0"
    decreases n
  {
    if n < 10 then [DigitChar(n)] else Decimal(n / 10) + [DigitChar(n % 10)]
  }

  predicate IsDigits(s: string)
  {
    forall i :: 0 <= i < |s| ==> '0' <= s[i] <= '9'
  }

  /** The value of a string of decimal digits. */
  function DecimalValue(s: string): nat
    requires IsDigits(s)
  {
    if s == [] then 0 else DecimalValue(s[..|s| - 1]) * 10 + (s[|s| - 1] as int - '0' as int)
  }

  /** The rendering of a number can be read back. */
  lemma {:induction false} DecimalRoundTrip(n: nat)
    ensures DecimalValue(Decimal(n)) == n
    decreases n
  {
    if n >= 10 {
      var r := Decimal(n);
      assert r[..|r| - 1] == Decimal(n / 10);
      DecimalRoundTrip(n / 10);
    }
  }

  /** Python's `str()` of a JSON value, as an f-string inserts it: a string
      verbatim, an integer as its sign and decimal digits, which read back
      to the integer. */
  function Display(v: Json): (r: string)
    ensures v.JStr? ==> r == v.s
    ensures v.JBool? ==> r == if v.b then "True" else "False"
    ensures v.JInt? ==> r != [] && (r[0] == '-' <==> v.i < 0)
    ensures v.JInt? && v.i >= 0 ==> IsDigits(r) && DecimalValue(r) == v.i
    ensures v.JInt? && v.i < 0 ==> IsDigits(r[1..]) && DecimalValue(r[1..]) == -v.i
  {
    match v
    case JNull => "None"
    case JBool(b) => if b then "True" else "False"
    case JInt(i) =>
      if i < 0 then
        DecimalRoundTrip(-i);
        assert ("-" + Decimal(-i))[1..] == Decimal(-i);
        "-" + Decimal(-i)
      else
        DecimalRoundTrip(i);
        Decimal(i)
    case JStr(s) => s
  }

  /** One entry of `line_items`. The unit amount is computed from `price`,
      the price field exactly as the body holds it; that computation is not
      modelled and belongs to the provider (see `ProviderOutcome`). */
  datatype LineItem = LineItem(currency: string, productName: string, price: Json, quantity: nat)

  /** The arguments of the session creation call. */
  datatype SessionRequest = SessionRequest(
    paymentMethodTypes: seq<string>,
    lineItems: seq<LineItem>,
    mode: string,
    successUrl: string,
    cancelUrl: string)

  /** An `HTTPException`: its status code and detail text. */
  datatype HttpError = HttpError(status: int, detail: string)

  const MissingFields: HttpError := HttpError(400, "Missing required fields")

  /** `all([gift, recipient, price])`: each of the three keys is present
      and holds a truthy value. */
  predicate HasRequiredFields(body: map<string, Json>)
    ensures HasRequiredFields(body) <==>
      forall key :: key in {"gift", "recipient", "price"} ==> key in body && Truthy(body[key])
  {
    Truthy(Get(body, "gift")) && Truthy(Get(body, "recipient")) && Truthy(Get(body, "price"))
  }

  /** Validation and construction of the session request: rejected with 400
      "Missing required fields" exactly when a required field is missing or
      falsy; otherwise one card payment line item in pounds sterling, of
      quantity one, named after the gift and the recipient. */
  function BuildSessionRequest(body: map<string, Json>): (r: Result<SessionRequest, HttpError>)
    ensures r.Failure? <==> !HasRequiredFields(body)
    ensures r.Failure? ==> r.error == MissingFields
    ensures r.Success? ==> |r.value.lineItems| == 1
    ensures r.Success? ==> r.value.lineItems[0].currency == "gbp" && r.value.lineItems[0].quantity == 1
    ensures r.Success? ==> r.value.lineItems[0].price == Get(body, "price")
    ensures r.Success? ==>
      r.value.lineItems[0].productName == Display(Get(body, "gift")) + " for " + Display(Get(body, "recipient"))
  {
    if !HasRequiredFields(body) then Failure(MissingFields)
    else
      var name := Display(Get(body, "gift")) + " for " + Display(Get(body, "recipient"));
      Success(SessionRequest(
        ["card"],
        [LineItem("gbp", name, Get(body, "price"), 1)],
        "payment",
        "https://giftie.example.com/success",
        "https://giftie.example.com/cancel"))
  }

  /** What the guarded block does with a session request: it converts the
      line item's price to an amount and calls the payment provider, and
      either returns the created session's URL or raises an exception with
      a message. A price that `float()` cannot convert raises here too, so a
      provider parameter sees the raw price and may fail on it. */
  datatype ProviderOutcome = Created(url: string) | Raised(message: string)

  /** The responses of the endpoint. */
  datatype CheckoutResponse =
    | CheckoutUrl(checkoutUrl: string)       // 200 {"checkout_url": ...}
    | ClientError(status: int, detail: string) // from the HTTPException
    | ServerError(status: int, error: string)  // 500 {"error": ...}

  /** `create_checkout_session`: the provider is consulted only for a valid
      body, and its failure becomes a 500 response carrying its message. */
  function CreateCheckoutSession(body: map<string, Json>, provider: SessionRequest -> ProviderOutcome)
    : (resp: CheckoutResponse)
    ensures resp.ClientError? <==> !HasRequiredFields(body)
    ensures resp.ClientError? ==> resp.status == 400 && resp.detail == "Missing required fields"
    ensures HasRequiredFields(body) ==>
      var req := BuildSessionRequest(body).value;
      match provider(req)
      case Created(url) => resp == CheckoutUrl(url)
      case Raised(msg) => resp == ServerError(500, msg)
  {
    match BuildSessionRequest(body)
    case Failure(e) => ClientError(e.status, e.detail)
    case Success(req) =>
      match provider(req)
      case Created(url) => CheckoutUrl(url)
      case Raised(msg) => ServerError(500, msg)
  }

  /** Leaving out any one of the three fields is rejected. */
  lemma MissingFieldRejected(body: map<string, Json>, key: string)
    requires key == "gift" || key == "recipient" || key == "price"
    requires key !in body
    ensures BuildSessionRequest(body) == Failure(MissingFields)
  {
  }

  /** A falsy value in any of the three fields is rejected: an empty string,
      zero, false or null. */
  lemma FalsyFieldRejected(body: map<string, Json>, key: string)
    requires key == "gift" || key == "recipient" || key == "price"
    requires key in body && body[key] in {JStr(""), JInt(0), JBool(false), JNull}
    ensures BuildSessionRequest(body) == Failure(MissingFields)
  {
  }

  /** A rejected body gets the same client error whatever the provider would do. */
  lemma RejectionIgnoresProvider(body: map<string, Json>, p1: SessionRequest -> ProviderOutcome,
                                 p2: SessionRequest -> ProviderOutcome)
    requires !HasRequiredFields(body)
    ensures CreateCheckoutSession(body, p1) == CreateCheckoutSession(body, p2) == ClientError(400, "Missing required fields")
  {
  }

  /** The request carries the price as given, so the guarded block can fail
      on one price and succeed on another: valid bodies with different prices
      give different requests. */
  lemma RequestCarriesPrice(b1: map<string, Json>, b2: map<string, Json>)
    requires HasRequiredFields(b1) && HasRequiredFields(b2)
    requires Get(b1, "price") != Get(b2, "price")
    ensures BuildSessionRequest(b1).Success? && BuildSessionRequest(b2).Success?
    ensures BuildSessionRequest(b1).value != BuildSessionRequest(b2).value
  {
  }

  /** For string fields the product name is `gift + " for " + recipient`,
      and both can be read back from it. */
  lemma ProductNameOfStrings(gift: string, recipient: string, price: Json)
    requires gift != "" && recipient != "" && Truthy(price)
    ensures var r := BuildSessionRequest(map["gift" := JStr(gift), "recipient" := JStr(recipient), "price" := price]);
      && r.Success?
      && r.value.lineItems[0].productName == gift + " for " + recipient
      && r.value.lineItems[0].productName[..|gift|] == gift
      && r.value.lineItems[0].productName[|gift| + 5..] == recipient
  {
    var body := map["gift" := JStr(gift), "recipient" := JStr(recipient), "price" := price];
    assert Get(body, "gift") == JStr(gift);
    assert Get(body, "recipient") == JStr(recipient);
    var name := gift + " for " + recipient;
    assert name[..|gift|] == gift;
    assert name[|gift| + 5..] == recipient;
  }
}
