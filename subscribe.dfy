/**
 * The newsletter subscription endpoint (`POST /api/subscribe`): check the
 * email, send the welcome mail, notify the administrator when ADMIN_EMAIL is
 * set, and report success.
 *
 * The handler is a function of the request body, the environment and which
 * email dispatch throws (if any); mail bodies and the timestamp in the
 * administrator's notice are not modelled.
 */
module Subscribe {

  import opened Js
  import opened EmailFormat
  import opened Mail

  datatype SubscribeReply =
    | SubscribeError(error: string)
    | Subscribed(message: string)   // `{success: true, message}`

  datatype SubscribeOutcome = SubscribeOutcome(response: Response<SubscribeReply>, emails: seq<Email>)

  const MsgEmailRequired := "Email is required"
  const MsgInvalidEmail := "Invalid email format"
  const MsgFailed := "Failed to process subscription. Please try again."
  const MsgSubscribed := "Subscription successful! Welcome email sent."
  /** The subject of `getSubscriptionEmail`. */
  const WelcomeSubject := "Welcome to ReadAfrik Event Updates!"
  const AdminSubject := "New Newsletter Subscription"

  /** The emails a valid subscription sends, in order. */
  function SubscriptionMails(email: string, env: Env): (mails: seq<Email>)
    ensures 1 <= |mails| <= 2
    ensures mails[0] == Email(email, WelcomeSubject)
    ensures |mails| == 2 <==> Truthy(env.adminEmail)
    ensures |mails| == 2 ==> mails[1] == Email(env.adminEmail.value, AdminSubject)
  {
    var welcome := Email(email, WelcomeSubject);
    if Truthy(env.adminEmail) then [welcome, Email(env.adminEmail.value, AdminSubject)] else [welcome]
  }

  /**
   * `POST(request)`. `email` is the body's `email` field; `bodyReadable` is
   * false when `request.json()` throws. `firstFailure` is the index of the
   * first `sendEmail` that throws, if any.
   */
  function Subscribe(bodyReadable: bool, email: Option<string>, env: Env, firstFailure: Option<nat>)
    : (out: SubscribeOutcome)
    ensures !bodyReadable ==> out == SubscribeOutcome(Response(500, SubscribeError(MsgFailed)), [])
    ensures bodyReadable && !Truthy(email) ==> out == SubscribeOutcome(Response(400, SubscribeError(MsgEmailRequired)), [])
    ensures bodyReadable && Truthy(email) && !ValidEmail(email.value) ==>
      out == SubscribeOutcome(Response(400, SubscribeError(MsgInvalidEmail)), [])
    // every email attempted is the welcome mail to the subscriber or the notice to ADMIN_EMAIL
    ensures out.emails != [] ==>
      bodyReadable && Truthy(email) && ValidEmail(email.value) && out.emails[0] == Email(email.value, WelcomeSubject)
    ensures |out.emails| == 2 ==> Truthy(env.adminEmail) && out.emails[1] == Email(env.adminEmail.value, AdminSubject)
    ensures |out.emails| <= 2
    // success exactly when the email is valid and no dispatch throws
    ensures out.response == Response(200, Subscribed(MsgSubscribed)) <==>
      bodyReadable && Truthy(email) && ValidEmail(email.value)
      && !SendInOrder(SubscriptionMails(email.value, env), firstFailure).threw
    ensures out.response.status == 200 ==> out.emails == SubscriptionMails(email.value, env)
    // a dispatch that throws lands in the catch: 500, after the emails attempted up to and including it
    ensures bodyReadable && Truthy(email) && ValidEmail(email.value)
            && SendInOrder(SubscriptionMails(email.value, env), firstFailure).threw ==>
      && out.response == Response(500, SubscribeError(MsgFailed))
      && out.emails == SendInOrder(SubscriptionMails(email.value, env), firstFailure).attempted
    ensures out.response.status in {200, 400, 500}
  {
    if !bodyReadable then SubscribeOutcome(Response(500, SubscribeError(MsgFailed)), [])
    else if !Truthy(email) then SubscribeOutcome(Response(400, SubscribeError(MsgEmailRequired)), [])
    else if !ValidEmail(email.value) then SubscribeOutcome(Response(400, SubscribeError(MsgInvalidEmail)), [])
    else
      var run := SendInOrder(SubscriptionMails(email.value, env), firstFailure);
      if run.threw then SubscribeOutcome(Response(500, SubscribeError(MsgFailed)), run.attempted)
      else SubscribeOutcome(Response(200, Subscribed(MsgSubscribed)), run.attempted)
  }

  /** A failing administrator notice still fails the request, although the welcome mail went out. */
  lemma FailedAdminNoticeFailsRequest(email: string, env: Env)
    requires ValidEmail(email) && Truthy(env.adminEmail)
    ensures var out := Subscribe(true, Some(email), env, Some(1));
      out.response.status == 500 && out.emails == [Email(email, WelcomeSubject), Email(env.adminEmail.value, AdminSubject)]
  {
    ValidEmailRejects(email);
  }
}
