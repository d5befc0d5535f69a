/**
  The sign-up page's submit handler. It clears the error, checks the form
  in a fixed order, posts the email and password to the register route,
  then signs in and navigates. The page's state (`error`, `busy`, the
  location) is a class; `fetch` followed by `res.json()`, and `signIn`, are
  inputs of the model.
 */
module RegisterPage {
  import opened Wrappers
  import Register
  import Text

  const BadEmail := "Please enter a valid email address."
  const ShortPassword := "Password must be at least 6 characters."
  const Mismatch := "Passwords do not match."
  const RegistrationFailed := "Registration failed."
  const TryAgain := "Registration failed. Please try again."
  const Home := "/"
  const ClientMinPassword := 6

  /** `isValidEmail`: the page tests the same pattern as the register route. */
  predicate IsValidEmail(email: string) {
    Register.ValidEmail(email)
  }

  /** The page's email check accepts exactly what the route's regular expression matches. */
  lemma PageEmailRuleIsRouteRule(email: string)
    ensures IsValidEmail(email) <==> Register.EmailPattern(email)
  {
    Register.ValidEmailIsPattern(email);
  }

  /** `JSON.stringify({ email, password })`: the body carries no `code`. */
  function ClientBody(email: string, password: string): (b: Register.Body)
    ensures b.code.None? && b.email == Some(email) && b.password == Some(password)
  {
    Register.Body(Some(email), Some(password), None)
  }

  /** `fetch(...)` then `res.json()`: either throws, or gives `res.ok` and `data.detail`. */
  datatype Fetched = FetchThrew | Answered(ok: bool, detail: Option<string>)

  type Fetcher = Register.Body -> Fetched

  /** What `signIn('credentials', { redirect: false, ... })` resolves to. */
  datatype SignInResult = SignInThrew | NoResult | SignInReply(error: Option<string>, url: Option<string>)

  type SignInCall = (string, string) -> SignInResult

  /**
    The effect of one submit: the error shown, `busy` when it was set (`None`
    when left alone), the location navigated to, and the request sent.
   */
  datatype Outcome = Outcome(error: string, busy: Option<bool>, location: Option<string>, request: Option<Register.Body>)

  /** The first failing form check's message, in the handler's order. */
  function FormError(email: string, password: string, confirm: string): Option<string> {
    if !IsValidEmail(email) then Some(BadEmail)
    else if |password| < ClientMinPassword then Some(ShortPassword)
    else if password != confirm then Some(Mismatch)
    else None
  }

  /** `handleSubmit`, as a function of the form and the two calls. */
  function Submit(email: string, password: string, confirm: string, fetch: Fetcher, signIn: SignInCall): Outcome {
    var check := FormError(email, password, confirm);
    if check.Some? then Outcome(check.value, None, None, None)
    else
      var body := ClientBody(email, password);
      match fetch(body)
      case FetchThrew => Outcome(TryAgain, Some(false), None, Some(body))
      case Answered(ok, detail) =>
        if !ok then
          Outcome(if detail.Some? && detail.value != "" then detail.value else RegistrationFailed, Some(false), None, Some(body))
        else
          match signIn(email, password)
          case SignInThrew => Outcome(TryAgain, Some(false), None, Some(body))
          case NoResult => Outcome("", Some(true), Some(Home), Some(body))
          case SignInReply(err, url) =>
            if err.Some? && err.value != "" then Outcome(err.value, Some(false), None, Some(body))
            else Outcome("", Some(true), Some(if url.Some? then url.value else Home), Some(body))
  }

  /** A failing form check shows its message and sends nothing, sets no `busy`, goes nowhere. */
  lemma FailedCheckSendsNothing(email: string, password: string, confirm: string, fetch: Fetcher, signIn: SignInCall)
    requires !IsValidEmail(email) || |password| < 6 || password != confirm
    ensures var o := Submit(email, password, confirm, fetch, signIn);
            o.request.None? && o.busy.None? && o.location.None?
            && o.error == (if !IsValidEmail(email) then BadEmail else if |password| < 6 then ShortPassword else Mismatch)
  {
  }

  /** A refused registration shows the route's `detail`, or the fallback when it has none, and clears `busy`. */
  lemma RefusalShowsDetail(email: string, password: string, fetch: Fetcher, signIn: SignInCall)
    requires FormError(email, password, password).None?
    requires fetch(ClientBody(email, password)).Answered? && !fetch(ClientBody(email, password)).ok
    ensures var o := Submit(email, password, password, fetch, signIn);
            var detail := fetch(ClientBody(email, password)).detail;
            && o.error == (if detail.Some? && detail.value != "" then detail.value else RegistrationFailed)
            && o.busy == Some(false) && o.location.None?
  {
  }

  /** The page navigates only after the route accepted the request and sign-in reported no error; the target defaults to `/`. */
  lemma NavigationFollowsAcceptance(email: string, password: string, confirm: string, fetch: Fetcher, signIn: SignInCall)
    ensures var o := Submit(email, password, confirm, fetch, signIn);
            o.location.Some? ==>
              && o.request == Some(ClientBody(email, password))
              && fetch(ClientBody(email, password)).Answered? && fetch(ClientBody(email, password)).ok
              && o.error == "" && o.busy == Some(true)
              && (signIn(email, password).SignInReply? && signIn(email, password).url.Some? ==>
                    o.location == signIn(email, password).url)
              && (signIn(email, password).NoResult? || (signIn(email, password).SignInReply? && signIn(email, password).url.None?) ==>
                    o.location == Some(Home))
  {
  }

  /**
    Every request the page sends is refused by the register route, whatever
    its tables, clock and code matcher: with a password of 8 characters or
    more for want of a code, with a shorter one for its length.
   */
  lemma RouteRefusesPageRequests(email: string, password: string, confirm: string, fetch: Fetcher, signIn: SignInCall,
                                 users: seq<Register.User>, otps: seq<Register.Otp>, now: int, matches: Register.CodeMatcher)
    requires Submit(email, password, confirm, fetch, signIn).request.Some?
    ensures var req := Submit(email, password, confirm, fetch, signIn).request.value;
            Register.Rejection(req, users, otps, now, matches)
            == Some(if |password| >= Register.MinPassword then Register.CodeRequired else Register.ShortPassword)
  {
    assert email != "" by {
      assert Text.IndexOf(email, '@') < |email|;
    }
  }

  /**
    The form check the route's rules call for: a password of at least the
    route's minimum and a code, sent along with the email and password.
   */
  function IntendedFormError(email: string, password: string, confirm: string, code: string): Option<string> {
    if !IsValidEmail(email) then Some(BadEmail)
    else if |password| < Register.MinPassword then Some(ShortPassword)
    else if password != confirm then Some(Mismatch)
    else if code == "" then Some(Register.CodeRequired)
    else None
  }

  function IntendedBody(email: string, password: string, code: string): (b: Register.Body)
    ensures b.code == Some(code)
  {
    Register.Body(Some(email), Some(password), Some(code))
  }

  /**
    With the intended check, a request the page sends passes all of the
    route's form checks: only the tables and the code can refuse it, and a
    fresh email with a matching, unexpired code is registered.
   */
  lemma IntendedRequestsReachTheTables(email: string, password: string, confirm: string, code: string,
                                       users: seq<Register.User>, otps: seq<Register.Otp>, now: int, matches: Register.CodeMatcher)
    requires IntendedFormError(email, password, confirm, code).None?
    ensures var r := Register.Rejection(IntendedBody(email, password, code), users, otps, now, matches);
            r.None? || r == Some(Register.EmailTaken) || r == Some(Register.OtpMissing) || r == Some(Register.OtpWrong)
    ensures var otp := Register.FirstOtp(otps, email);
            (forall u :: u in users ==> u.email != email) && otp.Some? && otp.value.expiresAt >= now
            && matches(code, otp.value.codeHash)
            ==> Register.Rejection(IntendedBody(email, password, code), users, otps, now, matches).None?
  {
    assert email != "" by {
      assert Text.IndexOf(email, '@') < |email|;
    }
  }

  /** The page's state. */
  class RegisterForm {
    var email: string
    var password: string
    var confirm: string
    var error: string
    var busy: bool
    /** Where `window.location.href` was sent, if anywhere. */
    var location: Option<string>
    /** The bodies posted to the register route so far. */
    var sent: seq<Register.Body>

    constructor(e: string, p: string, c: string)
      ensures email == e && password == p && confirm == c
      ensures error == "" && !busy && location.None? && sent == []
    {
      email, password, confirm := e, p, c;
      error, busy, location, sent := "", false, None, [];
    }

    /** `handleSubmit`: the state afterwards is what `Submit` says; the inputs are untouched. */
    method HandleSubmit(fetch: Fetcher, signIn: SignInCall)
      modifies this
      ensures email == old(email) && password == old(password) && confirm == old(confirm)
      ensures var o := Submit(email, password, confirm, fetch, signIn);
              && error == o.error
              && busy == (if o.busy.Some? then o.busy.value else old(busy))
              && location == (if o.location.Some? then o.location else old(location))
              && sent == old(sent) + (if o.request.Some? then [o.request.value] else [])
    {
      error := "";
      if !IsValidEmail(email) {
        error := BadEmail;
        return;
      }
      if |password| < ClientMinPassword {
        error := ShortPassword;
        return;
      }
      if password != confirm {
        error := Mismatch;
        return;
      }
      busy := true;
      var body := ClientBody(email, password);
      sent := sent + [body];
      var res := fetch(body);
      if res.FetchThrew? {
        error := TryAgain;
        busy := false;
        return;
      }
      if !res.ok {
        error := if res.detail.Some? && res.detail.value != "" then res.detail.value else RegistrationFailed;
        busy := false;
        return;
      }
      var result := signIn(email, password);
      if result.SignInThrew? {
        error := TryAgain;
        busy := false;
        return;
      }
      if result.SignInReply? && result.error.Some? && result.error.value != "" {
        error := result.error.value;
        busy := false;
        return;
      }
      location := Some(if result.SignInReply? && result.url.Some? then result.url.value else Home);
    }
  }
}
