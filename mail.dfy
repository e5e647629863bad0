/**
 * Sending a handler's emails one `await sendEmail(...)` after another inside
 * its `try` block: the first dispatch that throws aborts the rest and the
 * handler's `catch` takes over.
 *
 * Which dispatch throws, if any, is an input (`firstFailure`: the index of
 * the first send that throws).
 */
module Mail {

  import opened Js

  /** The emails attempted, and whether one of them threw. */
  datatype SendRun = SendRun(attempted: seq<Email>, threw: bool)

  function SendInOrder(mails: seq<Email>, firstFailure: Option<nat>): (r: SendRun)
    ensures r.threw <==> firstFailure.Some? && firstFailure.value < |mails|
    ensures r.threw ==> r.attempted == mails[..firstFailure.value + 1]
    ensures !r.threw ==> r.attempted == mails
    ensures |r.attempted| <= |mails| && r.attempted == mails[..|r.attempted|]
  {
    if firstFailure.Some? && firstFailure.value < |mails|
    then SendRun(mails[..firstFailure.value + 1], true)
    else SendRun(mails, false)
  }
}
