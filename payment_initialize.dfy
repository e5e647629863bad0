/**
 * The payment initialization endpoint (`POST /api/payment/initialize`):
 * validate the purchase intent, draw a reference, build the metadata, check
 * the server's secret key, ask the provider to open a transaction and hand
 * back its redirect data.
 *
 * The handler is a function of the request body, the environment, the clock
 * and random draw, and the provider's reply. Its result records the HTTP
 * response, whether a reference was drawn, and the provider calls made.
 */
module PaymentInitialize {

  import opened Js
  import opened EmailFormat
  import opened Paystack

  /** The JSON body; `None` stands for a body that is not a JSON object (`request.json()` or the destructuring throws). */
  datatype InitBody = InitBody(
    email: Option<string>,
    amount: Option<real>,
    cartItems: Option<seq<CartItem>>,
    customerName: Option<string>,
    customerPhone: Option<string>)

  datatype Metadata = Metadata(cartItems: seq<CartItem>, customerName: string, customerPhone: string, paymentDate: string)

  /** The body sent to the provider's transaction-initialize endpoint. */
  datatype ProviderInitRequest = ProviderInitRequest(
    email: string,
    amountInKobo: int,
    reference: string,
    metadata: Metadata,
    currency: string,
    channels: seq<string>,
    callbackUrl: string)

  datatype AuthData = AuthData(authorizationUrl: string, accessCode: string)

  /**
   * What the provider call produced: the fetch or its JSON parse threw, or a
   * reply with a `status` flag, an optional `message` and an optional `data` block.
   */
  datatype ProviderInitOutcome =
    | ProviderThrew
    | ProviderReplied(status: bool, message: Option<string>, data: Option<AuthData>)

  datatype InitReply =
    | InitError(error: string)
    | InitStarted(reference: string, authorizationUrl: string, accessCode: string)

  datatype InitOutcome = InitOutcome(
    response: Response<InitReply>,
    referenceDrawn: bool,
    providerCalls: seq<ProviderInitRequest>)

  const Channels: seq<string> := ["card", "bank", "ussd", "mobile_money"]
  const CallbackPath := "/payment/callback"
  const MsgRequired := "Email and amount are required"
  const MsgInvalidEmail := "Invalid email format"
  const MsgConfig := "Payment system configuration error"
  const MsgProviderDefault := "Payment initialization failed"
  const MsgInternal := "An error occurred while initializing payment"

  function Fail(status: int, error: string, drawn: bool, calls: seq<ProviderInitRequest>): InitOutcome {
    InitOutcome(Response(status, InitError(error)), drawn, calls)
  }

  /** The metadata envelope, with the defaults for missing fields. */
  function BuildMetadata(body: InitBody, paymentDate: string): (m: Metadata)
    ensures body.cartItems.Some? ==> m.cartItems == body.cartItems.value
    ensures body.cartItems.None? ==> m.cartItems == []
    ensures Truthy(body.customerName) ==> m.customerName == body.customerName.value
    ensures !Truthy(body.customerName) ==> m.customerName == "Guest"
    ensures Truthy(body.customerPhone) ==> m.customerPhone == body.customerPhone.value
    ensures !Truthy(body.customerPhone) ==> m.customerPhone == ""
    ensures m.paymentDate == paymentDate
  {
    Metadata(
      ListOrEmpty(body.cartItems),
      OrElse(body.customerName, "Guest"),
      OrElse(body.customerPhone, ""),
      paymentDate)
  }

  /** The request the handler sends once the input and the secret check out. */
  function ProviderRequest(body: InitBody, env: Env, reference: string, paymentDate: string): (r: ProviderInitRequest)
    requires body.email.Some? && body.amount.Some?
    ensures r.email == body.email.value && r.reference == reference
    // the amount goes out in kobo, rounded to the nearest unit
    ensures (r.amountInKobo as real) - 0.5 <= body.amount.value * 100.0 < (r.amountInKobo as real) + 0.5
    ensures r.metadata == BuildMetadata(body, paymentDate)
    ensures r.channels == Channels
    ensures Truthy(env.currency) ==> r.currency == env.currency.value
    ensures !Truthy(env.currency) ==> r.currency == "NGN"
    // the provider always returns the buyer to the callback page, on localhost when no site URL is set
    ensures |CallbackPath| <= |r.callbackUrl| && r.callbackUrl[|r.callbackUrl| - |CallbackPath|..] == CallbackPath
    ensures !Truthy(env.appUrl) ==> r.callbackUrl == "http://localhost:3000" + CallbackPath
  {
    var site := OrElse(env.appUrl, "http://localhost:3000");
    assert (site + CallbackPath)[|site|..] == CallbackPath;
    ProviderInitRequest(
      body.email.value,
      ConvertToKobo(body.amount.value),
      reference,
      BuildMetadata(body, paymentDate),
      OrElse(env.currency, "NGN"),
      Channels,
      site + CallbackPath)
  }

  /**
   * `POST(request)`. `now` is `Date.now()`, `u` the `Math.random()` draw,
   * `paymentDate` the ISO timestamp, `provider` the provider's reply.
   */
  function Initialize(body: Option<InitBody>, env: Env, now: nat, u: real, paymentDate: string,
                      provider: ProviderInitOutcome): (out: InitOutcome)
    requires 0.0 <= u < 1.0
    // a body that cannot be read is an internal error, before anything else happens
    ensures body.None? ==> out == Fail(500, MsgInternal, false, [])
    // validation: missing/falsy email or amount first, then the email rule; nothing drawn, nothing called
    ensures body.Some? && !(Truthy(body.value.email) && TruthyNumber(body.value.amount)) ==>
      out == Fail(400, MsgRequired, false, [])
    ensures body.Some? && Truthy(body.value.email) && TruthyNumber(body.value.amount)
            && !ValidEmail(body.value.email.value) ==>
      out == Fail(400, MsgInvalidEmail, false, [])
    // past validation a reference is drawn; without the secret there is no provider call
    ensures ValidIntent(body) ==> out.referenceDrawn
    ensures ValidIntent(body) && !Truthy(env.paystackSecretKey) ==> out == Fail(500, MsgConfig, true, [])
    // otherwise exactly one provider call, carrying the locally drawn reference
    ensures ValidIntent(body) && Truthy(env.paystackSecretKey) ==>
      out.providerCalls == [ProviderRequest(body.value, env, GeneratePaymentReference(now, u), paymentDate)]
    ensures out.response.status == 200 <==>
      ValidIntent(body) && Truthy(env.paystackSecretKey)
      && provider.ProviderReplied? && provider.status && provider.data.Some?
    ensures out.response.status == 200 ==>
      out.response.body == InitStarted(GeneratePaymentReference(now, u),
                                       provider.data.value.authorizationUrl, provider.data.value.accessCode)
    // the provider's refusal is answered 400 with its own message, or the default when it sends none
    ensures ValidIntent(body) && Truthy(env.paystackSecretKey) && provider.ProviderReplied? && !provider.status ==>
      out.response == Response(400, InitError(if Truthy(provider.message) then provider.message.value
                                              else MsgProviderDefault))
    // a thrown call, or an accepted reply without data, lands in the outer catch
    ensures ValidIntent(body) && Truthy(env.paystackSecretKey)
            && (provider.ProviderThrew? || (provider.status && provider.data.None?)) ==>
      out.response == Response(500, InitError(MsgInternal))
    ensures out.response.status in {200, 400, 500}
  {
    if body.None? then Fail(500, MsgInternal, false, [])
    else
      var b := body.value;
      if !Truthy(b.email) || !TruthyNumber(b.amount) then Fail(400, MsgRequired, false, [])
      else if !ValidEmail(b.email.value) then Fail(400, MsgInvalidEmail, false, [])
      else
        var reference := GeneratePaymentReference(now, u);
        if !Truthy(env.paystackSecretKey) then Fail(500, MsgConfig, true, [])
        else
          var calls := [ProviderRequest(b, env, reference, paymentDate)];
          match provider
          case ProviderThrew => Fail(500, MsgInternal, true, calls)
          case ProviderReplied(status, message, data) =>
            if !status then Fail(400, OrElse(message, MsgProviderDefault), true, calls)
            else if data.None? then Fail(500, MsgInternal, true, calls)  // `data.data.authorization_url` throws
            else InitOutcome(Response(200, InitStarted(reference, data.value.authorizationUrl, data.value.accessCode)),
                             true, calls)
  }

  /** The body passes both validation steps. */
  predicate ValidIntent(body: Option<InitBody>) {
    body.Some? && Truthy(body.value.email) && TruthyNumber(body.value.amount)
    && ValidEmail(body.value.email.value)
  }

  /** An amount of zero is treated as missing, exactly like an absent one. */
  lemma ZeroAmountIsMissing(email: string, env: Env, now: nat, u: real, paymentDate: string,
                            provider: ProviderInitOutcome)
    requires 0.0 <= u < 1.0
    ensures
      var withZero := InitBody(Some(email), Some(0.0), None, None, None);
      var without := InitBody(Some(email), None, None, None, None);
      Initialize(Some(withZero), env, now, u, paymentDate, provider)
        == Initialize(Some(without), env, now, u, paymentDate, provider)
        == Fail(400, MsgRequired, false, [])
  {
  }

  /** A provider call is only ever made for a valid intent with the secret set, and carries the fixed channels and the amount in kobo. */
  lemma ProviderCallShape(body: Option<InitBody>, env: Env, now: nat, u: real, paymentDate: string,
                          provider: ProviderInitOutcome)
    requires 0.0 <= u < 1.0
    ensures var out := Initialize(body, env, now, u, paymentDate, provider);
      |out.providerCalls| <= 1
      && (|out.providerCalls| == 1 ==>
            && ValidIntent(body) && Truthy(env.paystackSecretKey)
            && out.providerCalls[0].channels == ["card", "bank", "ussd", "mobile_money"]
            && out.providerCalls[0].amountInKobo == ConvertToKobo(body.value.amount.value)
            && out.providerCalls[0].email == body.value.email.value
            && (env.currency.None? ==> out.providerCalls[0].currency == "NGN")
            && ParseReference(out.providerCalls[0].reference).Some?)
  {
  }

  /** The end-to-end sample: `{email: "a@b.com", amount: 15}` is sent as 1500 kobo under a well-formed reference. */
  lemma SampleInitialization(env: Env, now: nat, u: real, paymentDate: string, url: string, code: string)
    requires 0.0 <= u < 1.0
    requires Truthy(env.paystackSecretKey)
    ensures var out := Initialize(Some(InitBody(Some("a@b.com"), Some(15.0), None, None, None)), env, now, u,
                                  paymentDate, ProviderReplied(true, None, Some(AuthData(url, code))));
      && out.response.status == 200
      && out.providerCalls[0].amountInKobo == 1500
      && out.providerCalls[0].metadata == Metadata([], "Guest", "", paymentDate)
      && ParseReference(out.response.body.reference) == Some((now, RandomSuffix(u)))
  {
    SampleAddressIsValid();
  }
}
