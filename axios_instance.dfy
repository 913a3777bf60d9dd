/** The response interceptor of the shared HTTP client: successes pass
    through; every failure shows toasts, may send the browser to the login
    page, and is rejected with a message. */
module AxiosInstance {
  import opened Common

  /** A failed request: no response at all, or a response with a status and
      the `message` field of its body. */
  datatype Failure = NoResponse | HttpError(status: int, bodyMessage: Option<string>)

  /** A side effect of the handler, in the order it happens. */
  datatype Effect = ShowError(message: string) | RedirectTo(href: string)

  /** What reached the interceptor: a successful response or a failure. */
  datatype Exchange<T> = Answered(response: T) | Failed(failure: Failure)

  /** How the interceptor settles a request: the promise resolves with the
      response, or is refused (rejected with `new Error(message)`) after the effects. */
  datatype Settled<T> = Resolved(response: T) | Refused(message: string, effects: seq<Effect>)

  /** `data?.message || (status >= 500 ? "Server error" : "something went wrong")`. */
  function ResponseMessage(status: int, bodyMessage: Option<string>): (r: string)
    ensures r != ""
    ensures Truthy(bodyMessage) ==> r == bodyMessage.value
    ensures !Truthy(bodyMessage) ==> r == (if status >= 500 then "Server error" else "something went wrong")
  {
    if Truthy(bodyMessage) then bodyMessage.value
    else if status >= 500 then "Server error"
    else "something went wrong"
  }

  /** The error handler. */
  function OnRejected<T>(failure: Failure): (r: Settled<T>)
    ensures r.Refused?
  {
    match failure
    case NoResponse => Refused("Network error", [ShowError("Network error")])
    case HttpError(status, body) =>
      var message := ResponseMessage(status, body);
      var unauthorized := if status == 401 then [ShowError("Unauthorized"), RedirectTo("/login")] else [];
      Refused(message, unauthorized + [ShowError(message)])
  }

  /** The interceptor pair: an answered request is handed on as it came. */
  function Intercept<T>(outcome: Exchange<T>): (r: Settled<T>)
    ensures outcome.Answered? ==> r == Resolved(outcome.response)
    ensures outcome.Failed? ==> r.Refused?
  {
    match outcome
    case Answered(res) => Resolved(res)
    case Failed(f) => OnRejected(f)
  }

  function CountToasts(effects: seq<Effect>): nat {
    if effects == [] then 0 else (if effects[0].ShowError? then 1 else 0) + CountToasts(effects[1..])
  }

  predicate Redirects(effects: seq<Effect>) {
    exists i :: 0 <= i < |effects| && effects[i].RedirectTo?
  }

  /** Every failure is rejected; the last toast shown is the rejection
      message; a 401 shows two toasts and redirects to `/login`, and every
      other failure shows one toast and stays on the page. */
  lemma FailureEffects<T>(failure: Failure)
    ensures var r := OnRejected<T>(failure);
      && r.Refused? && |r.effects| >= 1
      && r.effects[|r.effects| - 1] == ShowError(r.message)
      && (failure == NoResponse ==> r.message == "Network error" && r.effects == [ShowError("Network error")])
      && (failure.HttpError? ==> r.message == ResponseMessage(failure.status, failure.bodyMessage))
      && (CountToasts(r.effects) == if failure.HttpError? && failure.status == 401 then 2 else 1)
      && (Redirects(r.effects) <==> failure.HttpError? && failure.status == 401)
      && (Redirects(r.effects) ==> RedirectTo("/login") in r.effects)
  {
    var r := OnRejected<T>(failure);
    if failure.HttpError? && failure.status == 401 {
      assert r.effects[1].RedirectTo?;
      assert CountToasts(r.effects[2..]) == 1;
    } else {
      assert CountToasts(r.effects[1..]) == 0;
    }
  }

  /** The body's message wins over the status class; without one, only the
      status decides, and a 401 without a message reads "something went wrong". */
  lemma MessagePrecedence(status: int, message: string)
    requires message != ""
    ensures ResponseMessage(status, Some(message)) == message
    ensures ResponseMessage(401, None) == "something went wrong"
    ensures ResponseMessage(status, Some("")) == ResponseMessage(status, None)
  {
  }
}
