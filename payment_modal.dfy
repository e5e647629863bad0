/**
 * The checkout modal (`PaymentModal`): the buyer fills in email, name and
 * phone, pays, the server opens a transaction, the provider's popup takes
 * the payment, and the modal verifies it.
 *
 * The component's state (isProcessing, isSuccess, error, formData) and the
 * cart it clears are fields of a class; its handlers are methods. The server
 * replies, the public key and whether the popup script is loaded are
 * parameters; `initRequests`, `popups` and `verifyRequests` log what the
 * modal sent out.
 */
module PaymentModal {

  import opened Js
  import opened EmailFormat
  import opened Paystack
  import PaymentInitialize
  import PaymentVerify

  datatype Product = Product(id: int, title: string, price: real, image: string)

  datatype Field = EmailField | NameField | PhoneField

  /** The body posted to the initialize endpoint. */
  datatype InitRequest = InitRequest(email: string, amount: real, cartItems: seq<CartItem>,
                                     customerName: string, customerPhone: string)

  /** The configuration handed to the provider's popup (`PaystackPop.setup`), defaults applied. */
  datatype PopupConfig = PopupConfig(key: string, email: string, amountInKobo: int, reference: string,
                                     currency: string, channels: seq<string>,
                                     cartItems: seq<CartItem>, customerName: string, customerPhone: string)

  /** What posting to the initialize endpoint produced. */
  datatype InitFetch =
    | InitThrew(message: Option<string>)
    | InitJson(success: bool, error: Option<string>, reference: string)

  /** What fetching the verify endpoint produced. */
  datatype VerifyFetch =
    | VerifyThrew(message: Option<string>)
    | VerifyJson(success: bool, message: Option<string>)

  const MsgRequiredFields := "Please fill in all required fields"
  const MsgInvalidEmail := "Please enter a valid email address"
  const MsgInitDefault := "Payment initialization failed"
  const MsgNotConfigured := "Payment system not configured"
  const MsgPaymentFailed := "Payment failed. Please try again."
  const MsgVerifyDefault := "Payment verification failed"

  class Modal {
    const product: Product
    var isProcessing: bool
    var isSuccess: bool
    var error: string
    var email: string
    var name: string
    var phone: string
    /** The shared cart's lines (the cart context's state). */
    var cart: seq<CartItem>
    var initRequests: seq<InitRequest>
    var popups: seq<PopupConfig>
    var verifyRequests: seq<string>

    /**
     * The modal is only ever processing after it has posted an initialize
     * request, opens at most one popup per request, and hands the popup only
     * contact details that passed the form's checks.
     */
    predicate Valid()
      reads this
    {
      && (isProcessing ==> initRequests != [])
      && |popups| <= |initRequests|
      && forall k :: 0 <= k < |popups| ==> ValidEmail(popups[k].email) && popups[k].customerName != ""
    }

    constructor (product: Product, cart: seq<CartItem>)
      ensures Valid()
      ensures this.product == product && this.cart == cart
      ensures !isProcessing && !isSuccess && error == "" && email == "" && name == "" && phone == ""
      ensures initRequests == [] && popups == [] && verifyRequests == []
    {
      this.product := product;
      this.cart := cart;
      isProcessing, isSuccess, error := false, false, "";
      email, name, phone := "", "", "";
      initRequests, popups, verifyRequests := [], [], [];
    }

    /** `disabled={isProcessing || !formData.email || !formData.name}`. */
    predicate PayButtonDisabled()
      reads this
      // a payment in flight cannot be started a second time
      ensures isProcessing ==> PayButtonDisabled()
      // an enabled button always gets past the required-fields check of `handlePayment`
      ensures !PayButtonDisabled() ==> email != "" && name != ""
    {
      isProcessing || email == "" || name == ""
    }

    /** `handleInputChange`: store the edited field and clear the error. */
    method HandleInputChange(field: Field, value: string)
      requires Valid()
      modifies this
      ensures Valid()
      ensures error == ""
      ensures email == (if field == EmailField then value else old(email))
      ensures name == (if field == NameField then value else old(name))
      ensures phone == (if field == PhoneField then value else old(phone))
      ensures isProcessing == old(isProcessing) && isSuccess == old(isSuccess) && cart == old(cart)
      ensures initRequests == old(initRequests) && popups == old(popups) && verifyRequests == old(verifyRequests)
    {
      match field {
        case EmailField => email := value;
        case NameField => name := value;
        case PhoneField => phone := value;
      }
      error := "";
    }

    /**
     * `handlePayment`: validate the form, post the intent, and open the
     * popup with the server's reference.
     */
    method HandlePayment(init: InitFetch, publicKey: Option<string>, popupLoaded: bool)
      requires Valid()
      modifies this
      ensures Valid()
      ensures email == old(email) && name == old(name) && phone == old(phone)
      ensures isSuccess == old(isSuccess) && cart == old(cart) && verifyRequests == old(verifyRequests)
      // validation failures: an error and no request
      ensures old(email) == "" || old(name) == "" ==>
        error == MsgRequiredFields && isProcessing == old(isProcessing) && initRequests == old(initRequests)
        && popups == old(popups)
      ensures old(email) != "" && old(name) != "" && !ValidEmail(old(email)) ==>
        error == MsgInvalidEmail && isProcessing == old(isProcessing) && initRequests == old(initRequests)
        && popups == old(popups)
      // a valid form posts exactly one initialize request
      ensures old(email) != "" && old(name) != "" && ValidEmail(old(email)) ==>
        initRequests == old(initRequests) + [InitRequest(email, product.price, cart, name, phone)]
      // any failure before the popup resets isProcessing and shows an error
      ensures old(email) != "" && old(name) != "" && ValidEmail(old(email)) && !InitReady(init, publicKey) ==>
        !isProcessing && error != "" && popups == old(popups)
      // a thrown request shows its message, or the generic failure text
      ensures old(email) != "" && old(name) != "" && ValidEmail(old(email)) && init.InitThrew? ==>
        error == (if Truthy(init.message) then init.message.value else MsgPaymentFailed)
      // a refused intent shows the server's error, or the initialization default
      ensures old(email) != "" && old(name) != "" && ValidEmail(old(email)) && init.InitJson? && !init.success ==>
        error == (if Truthy(init.error) then init.error.value else MsgInitDefault)
      // an accepted intent without a public key never reaches the popup
      ensures old(email) != "" && old(name) != "" && ValidEmail(old(email)) && init.InitJson? && init.success
              && !Truthy(publicKey) ==>
        error == MsgNotConfigured
      // every popup ever opened carries a checked email and a name
      ensures forall k :: 0 <= k < |popups| ==> ValidEmail(popups[k].email) && popups[k].customerName != ""
      // otherwise the popup gets the price in kobo and the server's reference
      ensures old(email) != "" && old(name) != "" && ValidEmail(old(email)) && InitReady(init, publicKey) ==>
        isProcessing && error == ""
        && popups == old(popups) + (if popupLoaded then [Popup(publicKey.value, init.reference)] else [])
    {
      if email == "" || name == "" {
        error := MsgRequiredFields;
        return;
      }
      if !ValidEmail(email) {
        error := MsgInvalidEmail;
        return;
      }
      isProcessing := true;
      error := "";
      initRequests := initRequests + [InitRequest(email, product.price, cart, name, phone)];
      match init {
        case InitThrew(message) =>
          error := OrElse(message, MsgPaymentFailed);
          isProcessing := false;
        case InitJson(success, initError, reference) =>
          if !success {
            // `throw new Error(data.error || default)`: the message is never empty
            error := OrElse(initError, MsgInitDefault);
            isProcessing := false;
          } else if !Truthy(publicKey) {
            error := MsgNotConfigured;
            isProcessing := false;
          } else if popupLoaded {
            popups := popups + [Popup(publicKey.value, reference)];
          }
          // without the popup script `initializePaystack` only alerts: nothing resets isProcessing
      }
    }

    /** The popup configuration for this modal's form, product and cart. */
    function Popup(key: string, reference: string): (c: PopupConfig)
      reads this
      ensures c.amountInKobo == ConvertToKobo(product.price) && c.reference == reference
      ensures c.currency == "NGN" && c.channels == ["card", "bank", "ussd", "mobile_money"]
    {
      PopupConfig(key, email, ConvertToKobo(product.price), reference, "NGN",
                  ["card", "bank", "ussd", "mobile_money"], cart, name, phone)
    }

    /** The popup's `onClose`. */
    method PopupClosed()
      requires Valid()
      modifies this
      ensures Valid()
      ensures !isProcessing
      ensures isSuccess == old(isSuccess) && error == old(error) && cart == old(cart)
      ensures email == old(email) && name == old(name) && phone == old(phone)
      ensures initRequests == old(initRequests) && popups == old(popups) && verifyRequests == old(verifyRequests)
    {
      isProcessing := false;
    }

    /** `verifyPayment(reference)`, run by the popup's callback with the reference it reports. */
    method VerifyPayment(reference: string, result: VerifyFetch)
      requires Valid()
      modifies this
      ensures Valid()
      ensures verifyRequests == old(verifyRequests) + [reference]
      ensures !isProcessing
      ensures initRequests == old(initRequests) && popups == old(popups)
      ensures email == old(email) && name == old(name) && phone == old(phone)
      ensures result.VerifyJson? && result.success ==>
        isSuccess && cart == [] && error == old(error)
      ensures !(result.VerifyJson? && result.success) ==>
        && isSuccess == old(isSuccess) && cart == old(cart)
        && error == (if Truthy(result.message) then result.message.value else MsgVerifyDefault)
    {
      verifyRequests := verifyRequests + [reference];
      match result {
        case VerifyJson(success, message) =>
          if success {
            isProcessing := false;
            isSuccess := true;
            cart := [];
          } else {
            error := OrElse(message, MsgVerifyDefault);
            isProcessing := false;
          }
        case VerifyThrew(message) =>
          error := OrElse(message, MsgVerifyDefault);
          isProcessing := false;
      }
    }
  }

  /** The initialize reply allows the popup: it reports success and the public key is set. */
  predicate InitReady(init: InitFetch, publicKey: Option<string>) {
    init.InitJson? && init.success && Truthy(publicKey)
  }

  /** Editing a field after a failed attempt re-enables the button once email and name are filled and nothing is in flight. */
  method EditAfterFailureEnablesPay(product: Product, cart: seq<CartItem>, email: string, name: string)
    returns (modal: Modal)
    requires email != "" && name != ""
    ensures !modal.PayButtonDisabled() && modal.error == ""
    ensures modal.initRequests == [] && modal.popups == []
  {
    modal := new Modal(product, cart);
    modal.HandlePayment(InitThrew(None), None, true);
    modal.HandleInputChange(EmailField, email);
    modal.HandleInputChange(NameField, name);
  }

  /** How the modal reads each reply of the initialize endpoint (`{error}` carries no `success` and no reference). */
  function InitClientView(reply: PaymentInitialize.InitReply): (f: InitFetch)
    ensures f.InitJson?
    ensures f.success <==> reply.InitStarted?
    ensures reply.InitStarted? ==> f.reference == reply.reference
    ensures reply.InitError? ==> f.error == Some(reply.error)
  {
    match reply
    case InitError(error) => InitJson(false, Some(error), "")
    case InitStarted(reference, _, _) => InitJson(true, None, reference)
  }

  /**
   * A checkout through the initialize endpoint: the popup opens with the
   * reference the server drew and the same kobo amount the server sent to
   * the provider, and the modal stays busy until the popup reports back.
   */
  method CheckoutOpensPopupWithServerReference(
    product: Product, cart: seq<CartItem>, email: string, name: string,
    env: Env, now: nat, u: real, paymentDate: string, url: string, code: string, publicKey: string)
    returns (modal: Modal)
    requires ValidEmail(email) && name != "" && publicKey != "" && product.price != 0.0
    requires 0.0 <= u < 1.0 && Truthy(env.paystackSecretKey)
    ensures modal.isProcessing && modal.error == "" && |modal.popups| == 1
    ensures modal.popups[0].reference == GeneratePaymentReference(now, u)
    ensures var out := PaymentInitialize.Initialize(
              Some(PaymentInitialize.InitBody(Some(email), Some(product.price), Some(cart), Some(name), Some(""))),
              env, now, u, paymentDate, PaymentInitialize.ProviderReplied(true, None, Some(PaymentInitialize.AuthData(url, code))));
      out.response.status == 200 && modal.popups[0].amountInKobo == out.providerCalls[0].amountInKobo
  {
    modal := new Modal(product, cart);
    modal.HandleInputChange(EmailField, email);
    modal.HandleInputChange(NameField, name);
    ValidEmailRejects(email);
    var body := PaymentInitialize.InitBody(Some(email), Some(product.price), Some(cart), Some(name), Some(""));
    var out := PaymentInitialize.Initialize(Some(body), env, now, u, paymentDate,
                                            PaymentInitialize.ProviderReplied(true, None, Some(PaymentInitialize.AuthData(url, code))));
    assert PaymentInitialize.ValidIntent(Some(body));
    modal.HandlePayment(InitClientView(out.response.body), Some(publicKey), true);
  }

  /** How the modal reads each reply of the verify endpoint. */
  function VerifyClientView(reply: PaymentVerify.VerifyReply): (f: VerifyFetch)
    ensures f.VerifyJson?
    ensures f.success <==> reply.Verified?
    ensures reply.NotSuccessful? ==> f.message == Some(reply.message)
    ensures reply.VerifyError? ==> f.message.None?
  {
    match reply
    case VerifyError(_) => VerifyJson(false, None)
    case NotSuccessful(_, message) => VerifyJson(false, Some(message))
    case Verified(_) => VerifyJson(true, None)
  }

  /** A transaction the provider reports as not successful leaves the cart intact and shows the endpoint's message. */
  method AbandonedPaymentKeepsCart(product: Product, cart: seq<CartItem>, reference: string, env: Env,
                                   tx: Transaction, customerSendThrows: bool)
    returns (modal: Modal)
    requires reference != "" && Truthy(env.paystackSecretKey) && tx.status != "success"
    ensures modal.cart == cart && !modal.isSuccess && !modal.isProcessing
    ensures modal.error == PaymentVerify.MsgNotSuccessful && modal.verifyRequests == [reference]
  {
    modal := new Modal(product, cart);
    var out := PaymentVerify.Verify(Some(reference), env, HttpOk(Some(VerifyEnvelope(true, Some(tx)))), customerSendThrows);
    PaymentVerify.UnsuccessfulTransactionSendsNothing(reference, env, tx, customerSendThrows);
    modal.VerifyPayment(reference, VerifyClientView(out.response.body));
  }
}
