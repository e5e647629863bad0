/**
 * The payment callback page (`PaymentCallbackContent`): the buyer returns
 * from the provider with `?reference=…`, the page asks the verify endpoint
 * once, and settles in `success` or `failed`.
 *
 * The page's React state (status, paymentDetails, error) is a class whose
 * methods are the effect's two halves: starting the verification, and
 * handling what the fetch produced. `verifications` logs every fetch issued.
 */
module PaymentCallback {

  import opened Js
  import opened PaymentVerify
  import opened Paystack

  datatype Status = Loading | Success | Failed

  /** What `fetch(...)` followed by `response.json()` produced on the page. */
  datatype FetchResult =
    | FetchThrew(message: Option<string>)
    | Json(success: bool, payment: Option<PaymentDetails>, message: Option<string>)

  /** How the page reads each reply of the verify endpoint. */
  function ClientView(reply: VerifyReply): (r: FetchResult)
    ensures r.Json?
    ensures r.success && r.payment.Some? <==> reply.Verified?
    ensures reply.Verified? ==> r.payment == Some(reply.payment)
    ensures reply.NotSuccessful? ==> r.message == Some(reply.message)
    ensures reply.VerifyError? ==> r.message.None?
  {
    match reply
    case VerifyError(_) => Json(false, None, None)        // `{error}`: no success, no message
    case NotSuccessful(_, message) => Json(false, None, Some(message))
    case Verified(payment) => Json(true, Some(payment), None)
  }

  const MsgNoReference := "No payment reference found"
  const MsgPageDefault := "Payment verification failed"
  const MsgFetchFailed := "An error occurred while verifying your payment"

  class CallbackPage {
    var status: Status
    var paymentDetails: Option<PaymentDetails>
    var error: string
    /** The reference whose verification is in flight, if any. */
    var pending: Option<string>
    /** Every verification fetch the page has issued, in order. */
    var verifications: seq<string>

    /** The success view is only ever reached together with the details it renders. */
    predicate Valid()
      reads this
    {
      && (status == Success ==> paymentDetails.Some?)
      && (pending.Some? ==> status == Loading && verifications != [] && verifications[|verifications| - 1] == pending.value)
    }

    constructor ()
      ensures Valid()
      ensures status == Loading && paymentDetails.None? && error == ""
      ensures pending.None? && verifications == []
    {
      status := Loading;
      paymentDetails := None;
      error := "";
      pending := None;
      verifications := [];
    }

    /** The first half of the effect: read the reference and either fail at once or issue the fetch. */
    method StartVerification(reference: Option<string>)
      requires Valid() && pending.None? && status == Loading
      modifies this
      ensures Valid()
      ensures paymentDetails == old(paymentDetails)
      ensures !Truthy(reference) ==>
        status == Failed && error == MsgNoReference && pending.None? && verifications == old(verifications)
      ensures Truthy(reference) ==>
        && status == Loading && error == old(error)
        && pending == Some(reference.value) && verifications == old(verifications) + [reference.value]
    {
      if !Truthy(reference) {
        status := Failed;
        error := MsgNoReference;
        return;
      }
      pending := Some(reference.value);
      verifications := verifications + [reference.value];
    }

    /** The second half: settle on what the fetch produced. There is no transition back to loading. */
    method CompleteVerification(result: FetchResult)
      requires Valid() && pending.Some?
      modifies this
      ensures Valid()
      ensures pending.None? && verifications == old(verifications)
      ensures status != Loading
      ensures status == Success <==> result.Json? && result.success && result.payment.Some?
      ensures status == Success ==> paymentDetails == result.payment && error == old(error)
      ensures status == Failed ==> paymentDetails == old(paymentDetails)
      ensures status == Failed && result.Json? ==>
        error == (if Truthy(result.message) then result.message.value else MsgPageDefault)
      ensures result.FetchThrew? ==>
        error == (if Truthy(result.message) then result.message.value else MsgFetchFailed)
    {
      pending := None;
      match result {
        case Json(success, payment, message) =>
          if success && payment.Some? {
            status := Success;
            paymentDetails := payment;
          } else {
            status := Failed;
            error := OrElse(message, MsgPageDefault);
          }
        case FetchThrew(message) =>
          status := Failed;
          error := OrElse(message, MsgFetchFailed);
      }
    }

    /** The success view renders only with payment details set. */
    predicate ShowsSuccessView()
      reads this
      // in a consistent page, the success status alone decides the success view
      ensures Valid() ==> (ShowsSuccessView() <==> status == Success)
      // and no verification is still pending behind it
      ensures Valid() && ShowsSuccessView() ==> pending.None?
    {
      status == Success && paymentDetails.Some?
    }
  }

  /**
   * A reference that the provider reports as paid leads the page, through
   * the verify endpoint, to the success view with exactly the endpoint's
   * record (the scenario of a 1500-kobo payment showing 15.00).
   */
  method VerifiedReferenceShowsSuccess(reference: string, env: Env, tx: Transaction, customerSendThrows: bool)
    returns (page: CallbackPage)
    requires reference != "" && Truthy(env.paystackSecretKey)
    requires tx.status == "success" && tx.customer.Some?
    ensures page.ShowsSuccessView() && page.paymentDetails == Some(Normalize(tx))
    ensures page.paymentDetails.value.amount * 100.0 == tx.amount
    ensures page.verifications == [reference]
  {
    page := new CallbackPage();
    page.StartVerification(Some(reference));
    var out := Verify(Some(reference), env, HttpOk(Some(VerifyEnvelope(true, Some(tx)))), customerSendThrows);
    SuccessfulTransactionIsVerified(reference, env, tx, customerSendThrows);
    page.CompleteVerification(ClientView(out.response.body));
  }

  /** An endpoint error reply (it carries `error`, not `message`) shows the page's default failure message. */
  method ErrorReplyShowsDefaultMessage(reference: string, error: string) returns (page: CallbackPage)
    requires reference != ""
    ensures page.status == Failed && page.error == MsgPageDefault && page.paymentDetails.None?
  {
    page := new CallbackPage();
    page.StartVerification(Some(reference));
    page.CompleteVerification(ClientView(VerifyError(error)));
  }
}
