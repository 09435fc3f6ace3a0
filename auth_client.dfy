/**
 * The client's AuthService: what `login`, `register` and `logout` give back
 * when the HTTP call succeeds, and which error message they throw when it
 * fails. The HTTP call itself is a parameter: either the response body or the
 * failure the HTTP client reports.
 */
module AuthClient {
  import opened Wrappers
  import opened Text
  import opened Json
  import opened ErrorUtils

  /** `error.response`: the status and the body the server sent. */
  datatype HttpResponse = HttpResponse(status: int, data: Json)

  /**
   * A failed call: the response if one arrived, whether a request was sent
   * (`error.request` is set), and `error.message` ("" when it is empty).
   */
  datatype HttpFailure = HttpFailure(response: Option<HttpResponse>, request: bool, message: string)

  const ServerPrefix := "Server responded with "
  const NoResponse := "No response received from server"
  const LoginFallback := "An unexpected error occurred"
  const RegisterFallback := "Registration failed"
  const LogoutFailed := "Failed to log out"

  /** An error page worth parsing: a string body that contains `<pre` in lower case. */
  predicate IsErrorPage(data: Json) {
    data.Str? && Includes(data.s, "<pre")
  }

  /** `error.message || fallback`. */
  function MessageOr(e: HttpFailure, fallback: string): (r: string)
    ensures e.message != "" ==> r == e.message
    ensures e.message == "" ==> r == fallback
  {
    if e.message != "" then e.message else fallback
  }

  // ---------------------------------------------------------------- login

  /** The message `login` throws for a failed call. */
  function LoginError(e: HttpFailure): (r: string) {
    match e.response
    case Some(resp) =>
      if resp.status >= 500 && IsErrorPage(resp.data) then ParseHtmlError(resp.data.s)
      else ServerPrefix + IntToString(resp.status)
    case None =>
      if e.request then NoResponse else MessageOr(e, LoginFallback)
  }

  /** `login`: the response body, or an error with the message above. */
  function Login(call: Result<Json, HttpFailure>): (r: Result<Json, string>)
    ensures r.Ok? <==> call.Ok?
    ensures call.Ok? ==> r.value == call.value
    ensures call.Err? ==> r.error == LoginError(call.error)
  {
    match call
    case Ok(data) => Ok(data)
    case Err(e) => Err(LoginError(e))
  }

  /** Outside the error-page branch the message is never empty. */
  lemma LoginMessageNonEmpty(e: HttpFailure)
    requires !(e.response.Some? && e.response.value.status >= 500 && IsErrorPage(e.response.value.data))
    ensures LoginError(e) != ""
  {
    if e.response.Some? {
      IntToStringShape(e.response.value.status);
    }
  }

  /** The status can be read back from a "Server responded with" message. */
  lemma LoginStatusReadable(e: HttpFailure)
    requires e.response.Some? && e.response.value.status >= 0
    requires !(e.response.value.status >= 500 && IsErrorPage(e.response.value.data))
    ensures |LoginError(e)| > |ServerPrefix| && LoginError(e)[..|ServerPrefix|] == ServerPrefix
    ensures var digits := LoginError(e)[|ServerPrefix|..];
            (forall i :: 0 <= i < |digits| ==> IsDigit(digits[i])) && ParseNat(digits) == e.response.value.status
  {
    var n: nat := e.response.value.status;
    var r := LoginError(e);
    assert r == ServerPrefix + NatToString(n);
    assert r[|ServerPrefix|..] == NatToString(n);
    ParseNatToString(n);
  }

  /** A page tagged `<PRE>` in upper case is not recognised, although the parser itself ignores case. */
  lemma LoginUpperCasePageNotParsed()
    ensures LoginError(HttpFailure(Some(HttpResponse(500, Str("<PRE>x</PRE>"))), true, "")) == ServerPrefix + "500"
  {
    UpperCasePageHasNoLowerTag();
    FiveHundredText();
  }

  lemma UpperCasePageHasNoLowerTag()
    ensures !IsErrorPage(Str("<PRE>x</PRE>"))
  {
    var s := "<PRE>x</PRE>";
    forall k | 0 <= k ensures !MatchesAt(s, k, "<pre", false) {
      if k + 4 <= |s| {
        assert !(CharEq(s[k + 0], "<pre"[0], false) && CharEq(s[k + 1], "<pre"[1], false));
      }
    }
  }

  lemma FiveHundredText()
    ensures IntToString(500) == "500"
  {
    assert NatToString(5) == "5";
    assert NatToString(50) == "50";
  }

  /** An error page sent with a 4xx status is reported by status, not parsed. */
  lemma LoginClientErrorPageNotParsed(status: int, page: string)
    requires 400 <= status < 500
    ensures LoginError(HttpFailure(Some(HttpResponse(status, Str(page))), true, "")) == ServerPrefix + IntToString(status)
  {
  }

  // ---------------------------------------------------------------- register

  /** The message `register` throws for a failed call. */
  function RegisterError(e: HttpFailure): (r: string) {
    if e.response.Some? && !Falsy(e.response.value.data) && IsErrorPage(e.response.value.data) then
      ParseHtmlError(e.response.value.data.s)
    else if e.response.Some? && !Falsy(e.response.value.data) && !Falsy(Get(e.response.value.data, "message")) then
      ToText(Get(e.response.value.data, "message"))
    else if e.request then NoResponse
    else MessageOr(e, RegisterFallback)
  }

  /** `register`: the response body, or an error with the message above. */
  function Register(call: Result<Json, HttpFailure>): (r: Result<Json, string>)
    ensures r.Ok? <==> call.Ok?
    ensures call.Ok? ==> r.value == call.value
    ensures call.Err? ==> r.error == RegisterError(call.error)
  {
    match call
    case Ok(data) => Ok(data)
    case Err(e) => Err(RegisterError(e))
  }

  /** An error page is parsed whatever its status, unlike in `login`. */
  lemma RegisterParsesAnyStatus(status: int, page: string, request: bool, message: string)
    requires Includes(page, "<pre")
    ensures RegisterError(HttpFailure(Some(HttpResponse(status, Str(page))), request, message)) == ParseHtmlError(page)
  {
    assert page != "" by {
      IncludesMeaning(page, "<pre");
    }
  }

  /** A body `{message: m}` with a non-empty string `m` gives `m` itself. */
  lemma RegisterUsesServerMessage(status: int, fields: map<string, Json>, m: string, request: bool, message: string)
    requires "message" in fields && fields["message"] == Str(m) && m != ""
    ensures RegisterError(HttpFailure(Some(HttpResponse(status, Obj(fields))), request, message)) == m
  {
  }

  /**
   * A response whose body has no usable `message` is reported as if no
   * response had come, since a request was sent.
   */
  lemma RegisterResponseWithoutMessage(status: int, data: Json, message: string)
    requires !IsErrorPage(data) && Falsy(Get(data, "message"))
    ensures RegisterError(HttpFailure(Some(HttpResponse(status, data)), true, message)) == NoResponse
  {
  }

  /** Without a response or a request, the client's own message wins over the fallback when it has one. */
  lemma RegisterFallbackMessage(e: HttpFailure)
    requires e.response.None? && !e.request
    ensures RegisterError(e) == (if e.message == "" then RegisterFallback else e.message)
    ensures RegisterError(e) != ""
  {
  }

  // ---------------------------------------------------------------- logout

  /** `logout`: nothing on success; any failure, whatever its cause, becomes one fixed message. */
  function Logout(call: Result<Json, HttpFailure>): (r: Result<(), string>)
    ensures r.Ok? <==> call.Ok?
    ensures r.Err? ==> r.error == LogoutFailed
  {
    match call
    case Ok(_) => Ok(())
    case Err(_) => Err(LogoutFailed)
  }
}
