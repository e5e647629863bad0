/**
 * The payment verification endpoint (`GET /api/payment/verify?reference=…`):
 * ask the provider for the definitive state of a reference, classify it,
 * normalise a successful transaction into the payment record, and attempt
 * the confirmation emails without letting their failure change the answer.
 *
 * The handler is a function of the query's reference, the environment, the
 * provider's reply and whether the customer email's dispatch throws. Its
 * result records the response, the provider calls made and the emails attempted.
 */
module PaymentVerify {

  import opened Js
  import opened Paystack

  datatype CustomerBlock = CustomerBlock(email: string, name: string, phone: string)

  /** The normalised record returned to the client and handed to the email templates. */
  datatype PaymentDetails = PaymentDetails(
    reference: string,
    amount: real,
    currency: string,
    status: string,
    paidAt: string,
    customer: CustomerBlock,
    cartItems: seq<CartItem>,
    channel: string,
    transactionDate: string)

  datatype VerifyReply =
    | VerifyError(error: string)
    | NotSuccessful(status: string, message: string)   // `{success: false, status, message}`
    | Verified(payment: PaymentDetails)                 // `{success: true, payment}`

  datatype VerifyOutcome = VerifyOutcome(
    response: Response<VerifyReply>,
    providerCalls: seq<string>,
    emails: seq<Email>)

  const MsgReferenceRequired := "Payment reference is required"
  const MsgConfig := "Payment system configuration error"
  const MsgVerificationFailed := "Payment verification failed"
  const MsgNotSuccessful := "Payment was not successful"
  const MsgInternal := "An error occurred while verifying payment"

  /** The payment record built from a successful transaction, with its defaults. */
  function Normalize(tx: Transaction): (p: PaymentDetails)
    requires tx.customer.Some?
    ensures p.reference == tx.reference && p.status == tx.status
    ensures p.amount * 100.0 == tx.amount
    ensures p.customer.email == tx.customer.value.email
    ensures tx.metadata.None? ==> p.customer.name == "Guest" && p.customer.phone == "" && p.cartItems == []
    ensures tx.metadata.Some? ==>
      && p.customer.name == (if Truthy(tx.metadata.value.customerName) then tx.metadata.value.customerName.value else "Guest")
      && p.customer.phone == (if Truthy(tx.metadata.value.customerPhone) then tx.metadata.value.customerPhone.value else "")
      && p.cartItems == (if tx.metadata.value.cartItems.Some? then tx.metadata.value.cartItems.value else [])
    ensures p.currency == tx.currency && p.paidAt == tx.paidAt && p.channel == tx.channel
    ensures p.transactionDate == tx.transactionDate
  {
    // `data.metadata?.x` is undefined for every x when the metadata is missing
    var m := tx.metadata.GetOr(TxMetadata(None, None, None));
    PaymentDetails(
      tx.reference,
      ConvertFromKobo(tx.amount),
      tx.currency,
      tx.status,
      tx.paidAt,
      CustomerBlock(tx.customer.value.email, OrElse(m.customerName, "Guest"), OrElse(m.customerPhone, "")),
      ListOrEmpty(m.cartItems),
      tx.channel,
      tx.transactionDate)
  }

  /**
   * `sendOrderConfirmationEmail(paymentDetails)`: the customer's confirmation
   * first; the admin notice only when ADMIN_EMAIL is set and the first
   * dispatch did not throw.
   */
  function OrderEmails(p: PaymentDetails, adminEmail: Option<string>, customerSendThrows: bool): (mails: seq<Email>)
    ensures 1 <= |mails| <= 2
    ensures mails[0] == Email(p.customer.email, "Order Confirmation - " + p.reference)
    ensures |mails| == 2 <==> Truthy(adminEmail) && !customerSendThrows
    ensures |mails| == 2 ==> mails[1] == Email(adminEmail.value, "New Order: " + p.reference)
  {
    var customer := Email(p.customer.email, "Order Confirmation - " + p.reference);
    if !customerSendThrows && Truthy(adminEmail)
    then [customer, Email(adminEmail.value, "New Order: " + p.reference)]
    else [customer]
  }

  function Fail(status: int, error: string, calls: seq<string>): VerifyOutcome {
    VerifyOutcome(Response(status, VerifyError(error)), calls, [])
  }

  /** `GET(request)`. */
  function Verify(reference: Option<string>, env: Env, provider: ProviderHttp, customerSendThrows: bool)
    : (out: VerifyOutcome)
    // input and configuration errors come first and never reach the provider
    ensures !Truthy(reference) ==> out == Fail(400, MsgReferenceRequired, [])
    ensures Truthy(reference) && !Truthy(env.paystackSecretKey) ==> out == Fail(500, MsgConfig, [])
    ensures Truthy(reference) && Truthy(env.paystackSecretKey) ==> out.providerCalls == [reference.value]
    // a provider failure thrown by the helper is an internal error; a falsy envelope status a 400
    ensures Truthy(reference) && Truthy(env.paystackSecretKey) && VerifyPaystackPayment(provider).None? ==>
      out == Fail(500, MsgInternal, [reference.value])
    ensures Truthy(reference) && Truthy(env.paystackSecretKey) && VerifyPaystackPayment(provider).Some?
            && !VerifyPaystackPayment(provider).value.status ==>
      out == Fail(400, MsgVerificationFailed, [reference.value])
    // emails are attempted only for a successful transaction
    ensures out.emails != [] ==> out.response.body.Verified?
    ensures out.response.body.NotSuccessful? ==>
      out.response.status == 200 && out.response.body.message == MsgNotSuccessful
      && out.response.body.status != "success" && out.emails == []
    ensures out.response.body.Verified? ==>
      out.response.status == 200 && out.response.body.payment.status == "success"
      && out.emails == OrderEmails(out.response.body.payment, env.adminEmail, customerSendThrows)
    ensures out.response.body.VerifyError? ==> out.response.status in {400, 500}
  {
    if !Truthy(reference) then Fail(400, MsgReferenceRequired, [])
    else if !Truthy(env.paystackSecretKey) then Fail(500, MsgConfig, [])
    else
      var calls := [reference.value];
      match VerifyPaystackPayment(provider)
      case None => Fail(500, MsgInternal, calls)
      case Some(envelope) =>
        if !envelope.status then Fail(400, MsgVerificationFailed, calls)
        else if envelope.data.None? then Fail(500, MsgInternal, calls)       // `data.status` throws
        else
          var tx := envelope.data.value;
          if tx.status != "success" then
            VerifyOutcome(Response(200, NotSuccessful(tx.status, MsgNotSuccessful)), calls, [])
          else if tx.customer.None? then Fail(500, MsgInternal, calls)      // `data.customer.email` throws
          else
            var details := Normalize(tx);
            VerifyOutcome(Response(200, Verified(details)), calls,
                          OrderEmails(details, env.adminEmail, customerSendThrows))
  }

  /** Whether the confirmation email throws never changes the response. */
  lemma EmailFailureIsInvisible(reference: Option<string>, env: Env, provider: ProviderHttp)
    ensures Verify(reference, env, provider, true).response == Verify(reference, env, provider, false).response
  {
  }

  /** A transaction the provider reports as "success" (with its customer block) is always answered with its normalised record. */
  lemma SuccessfulTransactionIsVerified(reference: string, env: Env, tx: Transaction, customerSendThrows: bool)
    requires reference != "" && Truthy(env.paystackSecretKey)
    requires tx.status == "success" && tx.customer.Some?
    ensures var out := Verify(Some(reference), env, HttpOk(Some(VerifyEnvelope(true, Some(tx)))), customerSendThrows);
      && out.response == Response(200, Verified(Normalize(tx)))
      && out.response.body.payment.amount == tx.amount / 100.0
      && out.emails[0] == Email(tx.customer.value.email, "Order Confirmation - " + tx.reference)
  {
  }

  /** Any other transaction status is reported, not raised, and no email goes out. */
  lemma UnsuccessfulTransactionSendsNothing(reference: string, env: Env, tx: Transaction, customerSendThrows: bool)
    requires reference != "" && Truthy(env.paystackSecretKey)
    requires tx.status != "success"
    ensures var out := Verify(Some(reference), env, HttpOk(Some(VerifyEnvelope(true, Some(tx)))), customerSendThrows);
      out.response == Response(200, NotSuccessful(tx.status, MsgNotSuccessful)) && out.emails == []
  {
  }
}
