/**
 * The payment helpers of src/lib/paystack.ts: the payment reference, the
 * conversions between major and minor currency units (naira and kobo,
 * dollars and cents, ...) and the currency display.
 *
 * `Date.now()` and `Math.random()` are parameters. Amounts are exact reals;
 * the floating-point rounding of JavaScript numbers is not modelled.
 */
module Paystack {

  import opened Js
  import opened Text

  const ReferencePrefix: string := "READAFRIK-"

  /** A cart line as it travels in the payment metadata. */
  datatype CartItem = CartItem(id: int, title: string, price: real, quantity: int)

  // ---- generatePaymentReference ----

  /** `Math.floor(Math.random() * 1000000)` for a draw `u` in [0, 1). */
  function RandomSuffix(u: real): (r: int)
    requires 0.0 <= u < 1.0
    ensures 0 <= r <= 999999
  {
    (u * 1000000.0).Floor
  }

  /** The reference text for a timestamp and a random suffix. */
  function PaymentReference(timestamp: nat, random: nat): (r: string)
    ensures StartsWith(r, ReferencePrefix)
    ensures ParseReference(r) == Some((timestamp, random))
  {
    ParseReferenceRoundTrip(timestamp, random);
    ReferencePrefix + Decimal(timestamp) + "-" + Decimal(random)
  }

  /** `generatePaymentReference()` with the clock reading and the random draw as inputs. */
  function GeneratePaymentReference(now: nat, u: real): (r: string)
    requires 0.0 <= u < 1.0
    ensures ParseReference(r) == Some((now, RandomSuffix(u)))
    ensures ParseReference(r).value.1 <= 999999
  {
    PaymentReference(now, RandomSuffix(u))
  }

  predicate AllDigits(s: string) {
    forall i :: 0 <= i < |s| ==> IsDigit(s[i])
  }

  /**
   * Reads a reference back: `READAFRIK-`, a run of digits, `-`, a run of
   * digits (the shape `/^READAFRIK-\d+-\d+$/`); `None` for anything else.
   */
  function ParseReference(s: string): Option<(nat, nat)> {
    if |s| < |ReferencePrefix| || s[..|ReferencePrefix|] != ReferencePrefix then None
    else
      var rest := s[|ReferencePrefix|..];
      var dash := FirstIndex(rest, '-');
      if dash == |rest| then None
      else
        var ts, rnd := rest[..dash], rest[dash + 1..];
        if ts != [] && rnd != [] && AllDigits(ts) && AllDigits(rnd)
        then Some((ParseDecimal(ts), ParseDecimal(rnd)))
        else None
  }

  /** The reference text `READAFRIK-<timestamp>-<suffix>` reads back as the timestamp and suffix it was made from. */
  lemma ParseReferenceRoundTrip(timestamp: nat, random: nat)
    ensures ParseReference(ReferencePrefix + Decimal(timestamp) + "-" + Decimal(random)) == Some((timestamp, random))
  {
    var s := ReferencePrefix + Decimal(timestamp) + "-" + Decimal(random);
    var a, b := Decimal(timestamp), Decimal(random);
    var rest := a + "-" + b;
    assert s == ReferencePrefix + rest;
    assert s[..|ReferencePrefix|] == ReferencePrefix;
    assert s[|ReferencePrefix|..] == rest;
    assert rest[|a|] == '-';
    assert forall k :: 0 <= k < |a| ==> rest[k] == a[k] && IsDigit(a[k]);
    assert FirstIndex(rest, '-') == |a|;
    assert rest[..|a|] == a;
    assert rest[|a| + 1..] == b;
    ParseDecimalOfDecimal(timestamp);
    ParseDecimalOfDecimal(random);
  }

  /** Distinct (timestamp, suffix) pairs never produce the same reference. */
  lemma PaymentReferenceInjective(ts1: nat, r1: nat, ts2: nat, r2: nat)
    requires PaymentReference(ts1, r1) == PaymentReference(ts2, r2)
    ensures ts1 == ts2 && r1 == r2
  {
  }

  // ---- convertToKobo / convertFromKobo ----

  /** `Math.round(amount * 100)`, that is `floor(amount * 100 + 0.5)`. */
  function ConvertToKobo(amount: real): (k: int)
    ensures (k as real) - 0.5 <= amount * 100.0 < (k as real) + 0.5
  {
    (amount * 100.0 + 0.5).Floor
  }

  /** `amountInKobo / 100`. */
  function ConvertFromKobo(amountInKobo: real): (r: real)
    ensures r * 100.0 == amountInKobo
  {
    amountInKobo / 100.0
  }

  /** An amount with at most two decimal places survives the trip to kobo and back. */
  lemma KoboRoundTrip(amount: real)
    requires (amount * 100.0).Floor as real == amount * 100.0
    ensures ConvertFromKobo(ConvertToKobo(amount) as real) == amount
  {
    var k := ConvertToKobo(amount);
    var m := (amount * 100.0).Floor;
    assert m as real - 0.5 <= amount * 100.0 < m as real + 0.5;
    assert k == m;
  }

  /** Any whole number of kobo survives the trip to the major unit and back. */
  lemma KoboFromToRoundTrip(k: int)
    ensures ConvertToKobo(ConvertFromKobo(k as real)) == k
  {
    var r := ConvertToKobo(ConvertFromKobo(k as real));
    assert ConvertFromKobo(k as real) * 100.0 == k as real;
    assert r as real - 0.5 <= k as real < r as real + 0.5;
  }

  /** For any amount the trip loses at most half a kobo. */
  lemma KoboRoundTripError(amount: real)
    ensures -0.005 <= ConvertFromKobo(ConvertToKobo(amount) as real) - amount <= 0.005
  {
    var k := ConvertToKobo(amount);
    var back := ConvertFromKobo(k as real);
    assert back * 100.0 == k as real;
    assert (back - amount) * 100.0 == k as real - amount * 100.0;
  }

  // ---- verifyPaystackPayment ----

  datatype Customer = Customer(email: string)

  /** The metadata the provider echoes back from initialization. */
  datatype TxMetadata = TxMetadata(customerName: Option<string>, customerPhone: Option<string>,
                                   cartItems: Option<seq<CartItem>>)

  /** The provider's view of a transaction (`data` of the verify reply); `amount` is in kobo. */
  datatype Transaction = Transaction(
    status: string,
    reference: string,
    amount: real,
    currency: string,
    paidAt: string,
    customer: Option<Customer>,
    metadata: Option<TxMetadata>,
    channel: string,
    transactionDate: string)

  /** The verify reply's envelope: a `status` flag and an optional `data` block. */
  datatype VerifyEnvelope = VerifyEnvelope(status: bool, data: Option<Transaction>)

  /** What the GET to the provider's verify endpoint produced. */
  datatype ProviderHttp =
    | NetworkError                         // fetch rejected
    | HttpError(code: int)                 // a reply with `response.ok` false
    | HttpOk(body: Option<VerifyEnvelope>) // `None`: the reply is not JSON

  /**
   * `verifyPaystackPayment(reference, secretKey)`: the parsed envelope, or
   * `None` when the helper throws (network failure, a non-OK status, a body
   * that is not JSON).
   */
  function VerifyPaystackPayment(http: ProviderHttp): (r: Option<VerifyEnvelope>)
    ensures r.Some? <==> http.HttpOk? && http.body.Some?
    ensures r.Some? ==> r.value == http.body.value
  {
    match http
    case NetworkError => None
    case HttpError(_) => None
    case HttpOk(body) => body
  }

  // ---- SUPPORTED_CURRENCIES / formatCurrency ----

  datatype CurrencyInfo = CurrencyInfo(name: string, symbol: string)

  /** The own entries of the currency table: five codes, each with a non-empty symbol. */
  function SupportedCurrency(code: string): (r: Option<CurrencyInfo>)
    ensures r.Some? <==> code in {"NGN", "GHS", "ZAR", "USD", "KES"}
    ensures r.Some? ==> r.value.symbol != [] && r.value.name != []
  {
    match code
    case "NGN" => Some(CurrencyInfo("Nigerian Naira", "₦"))
    case "GHS" => Some(CurrencyInfo("Ghanaian Cedi", "₵"))
    case "ZAR" => Some(CurrencyInfo("South African Rand", "R"))
    case "USD" => Some(CurrencyInfo("US Dollar", "$"))
    case "KES" => Some(CurrencyInfo("Kenyan Shilling", "KSh"))
    case _ => None
  }

  const DefaultCurrency: string := "NGN"

  /**
   * The two renderings of the amount that the runtime produces:
   * `amount.toFixed(2)` and `amount.toLocaleString('en-US', {2 fraction digits})`.
   */
  datatype AmountText = AmountText(fixed: string, grouped: string)

  /**
   * `formatCurrency(amount, currency)` with the lookup restricted to the
   * table's own entries: an unknown code gives the bare two-decimal amount,
   * a known one its symbol followed by the grouped amount.
   */
  function FormatCurrency(amount: AmountText, currency: Option<string>): (r: string)
    ensures SupportedCurrency(currency.GetOr(DefaultCurrency)).None? ==> r == amount.fixed
    ensures SupportedCurrency(currency.GetOr(DefaultCurrency)).Some? ==>
      var symbol := SupportedCurrency(currency.GetOr(DefaultCurrency)).value.symbol;
      |symbol| <= |r| && r[..|symbol|] == symbol && r[|symbol|..] == amount.grouped
  {
    var code := currency.GetOr(DefaultCurrency);
    match SupportedCurrency(code)
    case None => amount.fixed
    case Some(info) => info.symbol + amount.grouped
  }

  /** Without a currency argument the naira sign leads. */
  lemma FormatCurrencyDefaultsToNaira(amount: AmountText)
    ensures FormatCurrency(amount, None) == "₦" + amount.grouped
  {
  }

  // ---- the lookup as the source writes it ----

  /**
   * What `SUPPORTED_CURRENCIES[code]` yields on a plain object literal: an
   * own entry, a property inherited from `Object.prototype` (a function, or
   * the prototype object itself for `__proto__`; truthy, with no `symbol`),
   * or `undefined`.
   */
  datatype Lookup = Own(info: CurrencyInfo) | Inherited | Missing

  predicate IsObjectPrototypeKey(code: string) {
    code in {"constructor", "hasOwnProperty", "isPrototypeOf", "propertyIsEnumerable",
             "toLocaleString", "toString", "valueOf", "__proto__", "__defineGetter__",
             "__defineSetter__", "__lookupGetter__", "__lookupSetter__"}
  }

  /**
   * The plain-object lookup: own entries are the table's, no currency code is
   * also a prototype key, and only a prototype key yields something outside
   * the table.
   */
  function LookupAsWritten(code: string): (r: Lookup)
    ensures r.Own? <==> SupportedCurrency(code).Some?
    ensures r.Own? ==> r.info == SupportedCurrency(code).value
    ensures IsObjectPrototypeKey(code) ==> r.Inherited?
    ensures !IsObjectPrototypeKey(code) ==> !r.Inherited?
  {
    match SupportedCurrency(code)
    case Some(info) => Own(info)
    case None => if IsObjectPrototypeKey(code) then Inherited else Missing
  }

  /**
   * `formatCurrency` as written: an inherited key passes the `!currencyInfo`
   * test and its missing `symbol` is interpolated as "undefined".
   */
  function FormatCurrencyAsWritten(amount: AmountText, currency: Option<string>): (r: string)
    ensures LookupAsWritten(currency.GetOr(DefaultCurrency)).Inherited? ==> r == "undefined" + amount.grouped
    ensures !IsObjectPrototypeKey(currency.GetOr(DefaultCurrency)) ==> r == FormatCurrency(amount, currency)
  {
    match LookupAsWritten(currency.GetOr(DefaultCurrency))
    case Missing => amount.fixed
    case Inherited => "undefined" + amount.grouped
    case Own(info) => info.symbol + amount.grouped
  }

  /** The code "toString" is not a currency, yet it does not get the bare amount. */
  lemma InheritedKeyGetsUndefinedSymbol()
    ensures FormatCurrencyAsWritten(AmountText("10.00", "10.00"), Some("toString")) == "undefined10.00"
    ensures FormatCurrency(AmountText("10.00", "10.00"), Some("toString")) == "10.00"
  {
    assert SupportedCurrency("toString").None?;
    assert IsObjectPrototypeKey("toString");
  }
}
