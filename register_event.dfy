/**
 * The event registration endpoint (`POST /api/register-event`): check the
 * required fields and the email format, send the registrant a confirmation,
 * notify the administrator when ADMIN_EMAIL is set, and report success.
 *
 * The handler is a function of the request body, the environment and which
 * email dispatch throws (if any). The formatted event date and the HTML and
 * text templates of the confirmation are not modelled; the administrator's
 * text body is, for its phone line.
 */
module RegisterEvent {

  import opened Js
  import opened EmailFormat
  import opened Mail

  /** The JSON body's string fields; `None` for the whole body stands for one `request.json()` cannot read. */
  datatype RegisterBody = RegisterBody(
    name: Option<string>,
    email: Option<string>,
    phone: Option<string>,
    eventTitle: Option<string>)

  datatype RegisterReply =
    | RegisterError(error: string)
    | Registered(message: string)   // `{success: true, message}`

  /** The response, the emails attempted, and the administrator's text body when that email was attempted. */
  datatype RegisterOutcome = RegisterOutcome(
    response: Response<RegisterReply>,
    emails: seq<Email>,
    adminText: Option<string>)

  const MsgMissingFields := "Missing required fields"
  const MsgInvalidEmail := "Invalid email format"
  const MsgFailed := "Failed to process registration. Please try again."
  const MsgRegistered := "Registration successful! Confirmation email sent."

  /** The subject of `getEventRegistrationEmail`. */
  function ConfirmationSubject(eventTitle: string): string {
    "Registration Confirmed: " + eventTitle
  }

  function AdminSubject(eventTitle: string): string {
    "New Event Registration: " + eventTitle
  }

  /** The phone as the administrator's notice shows it. */
  function PhoneShown(phone: Option<string>): (shown: string)
    ensures shown != ""
    ensures Truthy(phone) ==> shown == phone.value
  {
    OrElse(phone, "Not provided")
  }

  /** The administrator's text body; it ends with the phone line. */
  function AdminText(eventTitle: string, name: string, email: string, phone: Option<string>): (t: string)
    ensures var line := "Phone: " + PhoneShown(phone); |line| <= |t| && t[|t| - |line|..] == line
  {
    "New Event Registration\n\nEvent: " + eventTitle + "\nAttendee: " + name + "\nEmail: " + email
    + "\nPhone: " + PhoneShown(phone)
  }

  /** The input passes both validation steps. */
  predicate ValidRegistration(body: RegisterBody)
    // a registration that goes through names a person and an event and has a plausible address
    ensures ValidRegistration(body) ==> body.name.Some? && body.email.Some? && body.eventTitle.Some?
    ensures ValidRegistration(body) ==>
      && body.name.value != "" && body.eventTitle.value != ""
      && |body.email.value| >= 5 && '@' in body.email.value
  {
    Truthy(body.name) && Truthy(body.email) && Truthy(body.eventTitle) && ValidEmail(body.email.value)
  }

  /** The emails a valid registration sends, in order. */
  function RegistrationMails(body: RegisterBody, env: Env): (mails: seq<Email>)
    requires ValidRegistration(body)
    ensures 1 <= |mails| <= 2
    ensures mails[0] == Email(body.email.value, ConfirmationSubject(body.eventTitle.value))
    ensures |mails| == 2 <==> Truthy(env.adminEmail)
    ensures |mails| == 2 ==> mails[1] == Email(env.adminEmail.value, AdminSubject(body.eventTitle.value))
  {
    var confirmation := Email(body.email.value, ConfirmationSubject(body.eventTitle.value));
    if Truthy(env.adminEmail)
    then [confirmation, Email(env.adminEmail.value, AdminSubject(body.eventTitle.value))]
    else [confirmation]
  }

  /** `POST(request)`; `firstFailure` is the index of the first `sendEmail` that throws, if any. */
  function Register(body: Option<RegisterBody>, env: Env, firstFailure: Option<nat>): (out: RegisterOutcome)
    ensures body.None? ==> out == RegisterOutcome(Response(500, RegisterError(MsgFailed)), [], None)
    // validation: the required fields first, then the email format; no email is sent
    ensures body.Some? && !(Truthy(body.value.name) && Truthy(body.value.email) && Truthy(body.value.eventTitle)) ==>
      out == RegisterOutcome(Response(400, RegisterError(MsgMissingFields)), [], None)
    ensures body.Some? && Truthy(body.value.name) && Truthy(body.value.email) && Truthy(body.value.eventTitle)
            && !ValidEmail(body.value.email.value) ==>
      out == RegisterOutcome(Response(400, RegisterError(MsgInvalidEmail)), [], None)
    // a valid registration always attempts the confirmation first
    ensures body.Some? && ValidRegistration(body.value) ==>
      out.emails != [] && out.emails[0] == Email(body.value.email.value, ConfirmationSubject(body.value.eventTitle.value))
    // the administrator is only ever mailed when ADMIN_EMAIL is set, and then with the phone line
    ensures |out.emails| == 2 ==>
      && Truthy(env.adminEmail) && out.emails[1] == Email(env.adminEmail.value, AdminSubject(body.value.eventTitle.value))
      && out.adminText == Some(AdminText(body.value.eventTitle.value, body.value.name.value, body.value.email.value,
                                         body.value.phone))
    ensures |out.emails| < 2 ==> out.adminText.None?
    // success exactly when the input is valid and no dispatch throws
    ensures out.response == Response(200, Registered(MsgRegistered)) <==>
      body.Some? && ValidRegistration(body.value) && !SendInOrder(RegistrationMails(body.value, env), firstFailure).threw
    ensures out.response.status == 200 ==> out.emails == RegistrationMails(body.value, env)
    // a dispatch that throws lands in the catch: 500, after the emails attempted up to and including it
    ensures body.Some? && ValidRegistration(body.value) && SendInOrder(RegistrationMails(body.value, env), firstFailure).threw ==>
      && out.response == Response(500, RegisterError(MsgFailed))
      && out.emails == SendInOrder(RegistrationMails(body.value, env), firstFailure).attempted
    ensures out.response.status in {200, 400, 500}
  {
    if body.None? then RegisterOutcome(Response(500, RegisterError(MsgFailed)), [], None)
    else
      var b := body.value;
      if !Truthy(b.name) || !Truthy(b.email) || !Truthy(b.eventTitle) then
        RegisterOutcome(Response(400, RegisterError(MsgMissingFields)), [], None)
      else if !ValidEmail(b.email.value) then
        RegisterOutcome(Response(400, RegisterError(MsgInvalidEmail)), [], None)
      else
        var run := SendInOrder(RegistrationMails(b, env), firstFailure);
        var adminText :=
          if |run.attempted| == 2 then Some(AdminText(b.eventTitle.value, b.name.value, b.email.value, b.phone))
          else None;
        var response :=
          if run.threw then Response(500, RegisterError(MsgFailed)) else Response(200, Registered(MsgRegistered));
        RegisterOutcome(response, run.attempted, adminText)
  }

  /** Without ADMIN_EMAIL only the registrant is mailed; with it and no failure, both are. */
  lemma AdminNoticeOnlyWithAddress(body: RegisterBody, env: Env)
    requires ValidRegistration(body)
    ensures !Truthy(env.adminEmail) ==> |Register(Some(body), env, None).emails| == 1
    ensures Truthy(env.adminEmail) ==> |Register(Some(body), env, None).emails| == 2
  {
  }

  /** A registration without a phone shows "Not provided" to the administrator. */
  lemma MissingPhoneShownAsNotProvided(name: string, email: string, title: string, admin: string)
    requires name != "" && title != "" && admin != "" && ValidEmail(email)
    ensures var out := Register(Some(RegisterBody(Some(name), Some(email), None, Some(title))),
                                Env(None, None, None, None, Some(admin)), None);
      && out.response.status == 200
      && var t := out.adminText.value; t[|t| - |"Phone: Not provided"|..] == "Phone: Not provided"
  {
  }

  /** A failing confirmation aborts the handler before the administrator is mailed, and the client sees 500. */
  lemma FailedConfirmationStopsEverything(body: RegisterBody, env: Env)
    requires ValidRegistration(body)
    ensures var out := Register(Some(body), env, Some(0));
      out.response == Response(500, RegisterError(MsgFailed)) && |out.emails| == 1 && out.adminText.None?
  {
  }
}
