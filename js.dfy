/**
 * JavaScript values as the handlers see them once a JSON body or an
 * environment variable has been read: a field is either absent (undefined or
 * null) or present. Truthiness follows JavaScript: the empty string and the
 * number 0 are falsy, every other present string or number is truthy.
 */
module Js {

  datatype Option<+T> = None | Some(value: T) {
    function GetOr(default: T): T {
      match this
      case Some(v) => v
      case None => default
    }
  }

  /** `!!s` for a string that may be undefined. */
  predicate Truthy(s: Option<string>) {
    s.Some? && s.value != ""
  }

  /** `!!x` for a number that may be undefined (JSON has no NaN). */
  predicate TruthyNumber(x: Option<real>) {
    x.Some? && x.value != 0.0
  }

  /** `s || fallback` for a string that may be undefined. */
  function OrElse(s: Option<string>, fallback: string): (r: string)
    ensures Truthy(s) ==> r == s.value
    ensures !Truthy(s) ==> r == fallback
  {
    if Truthy(s) then s.value else fallback
  }

  /** A list that may be undefined, with `xs || []`; any array is truthy. */
  function ListOrEmpty<T>(xs: Option<seq<T>>): (r: seq<T>)
    ensures xs.Some? ==> r == xs.value
    ensures xs.None? ==> r == []
  {
    xs.GetOr([])
  }

  /**
   * The environment variables the server handlers and the checkout read;
   * each may be unset. An empty value is falsy like an unset one.
   */
  datatype Env = Env(
    paystackSecretKey: Option<string>,  // PAYSTACK_SECRET_KEY
    paystackPublicKey: Option<string>,  // NEXT_PUBLIC_PAYSTACK_PUBLIC_KEY
    currency: Option<string>,           // NEXT_PUBLIC_CURRENCY
    appUrl: Option<string>,             // NEXT_PUBLIC_APP_URL
    adminEmail: Option<string>          // ADMIN_EMAIL
  )

  /** An HTTP response: its status code and its JSON body. */
  datatype Response<B> = Response(status: int, body: B)

  /** A `sendEmail` call: its recipient and subject (the HTML and text bodies are not modelled). */
  datatype Email = Email(to: string, subject: string)
}
