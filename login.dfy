/**
 * The login page (app/login/page.tsx): the mount-time redirect of a visitor
 * who already has a session, and the submit handler that posts the
 * credentials and stores the session token it gets back.
 */
module Login {
  import opened Wrappers
  import opened Web

  const LoginFallback := "Credenciais inválidas"

  /** `{ email, password }`, the body of a login request. */
  function CredentialsJson(email: string, password: string): Json {
    JObject([("email", JString(email)), ("password", JString(password))])
  }

  /** The login request carries no `Authorization` header. */
  function LoginRequest(email: string, password: string): Request {
    Request(POST, Api("/auth/login"), None, Some(CredentialsJson(email, password)))
  }

  /** The body holds exactly the two typed credentials, under their own names. */
  lemma CredentialsFields(email: string, password: string)
    ensures Member(CredentialsJson(email, password), "email") == Some(JString(email))
    ensures Member(CredentialsJson(email, password), "password") == Some(JString(password))
    ensures forall m :: m in CredentialsJson(email, password).members ==> m.0 == "email" || m.0 == "password"
  {
    var ms := CredentialsJson(email, password).members;
    LookupDistinct(ms, 0);
    LookupDistinct(ms, 1);
  }

  class LoginPage {
    var email: string
    var password: string
    var loading: bool
    var error: string
    const window: Browser

    constructor (window: Browser)
      ensures this.window == window
      ensures email == "" && password == "" && !loading && error == ""
    {
      this.window := window;
      email := "";
      password := "";
      loading := false;
      error := "";
    }

    /** The mount effect: a stored token replaces the page by /schedule; without one the visitor stays. */
    method Mount()
      modifies window
      ensures window.HasToken() ==> window.history == old(window.history) + [Replace("/schedule")]
      ensures !window.HasToken() ==> window.history == old(window.history)
      ensures window.storage == old(window.storage) && window.requests == old(window.requests)
    {
      if window.HasToken() {
        window.Navigate(Replace("/schedule"));
      }
    }

    method SetEmail(e: string)
      modifies this
      ensures email == e && password == old(password) && loading == old(loading) && error == old(error)
    {
      email := e;
    }

    method SetPassword(p: string)
      modifies this
      ensures password == p && email == old(email) && loading == old(loading) && error == old(error)
    {
      password := p;
    }

    /**
     * `handleSubmit`, with `reply` the outcome of the POST to /auth/login.
     * The error is cleared at the start and `loading` is false again on
     * every path; a granted session is stored under the token key and leads
     * to /schedule, a refused one only shows its message.
     */
    method HandleSubmit(reply: Fetched<AuthBody>)
      modifies this, window
      ensures window.requests == old(window.requests) + [LoginRequest(old(email), old(password))]
      ensures !loading && email == old(email) && password == old(password)
      ensures AuthOutcome(reply, LoginFallback).Granted? ==>
        && window.storage == old(window.storage)[TokenKey := AuthOutcome(reply, LoginFallback).token]
        && window.history == old(window.history) + [Push("/schedule")]
        && error == ""
        && (window.HasToken() <==> AuthOutcome(reply, LoginFallback).token != "")
      ensures AuthOutcome(reply, LoginFallback).Refused? ==>
        && window.storage == old(window.storage) && window.history == old(window.history)
        && error == AuthOutcome(reply, LoginFallback).message
    {
      loading := true;
      error := "";
      window.Send(LoginRequest(email, password));
      var outcome := AuthOutcome(reply, LoginFallback);
      if outcome.Granted? {
        window.SetItem(TokenKey, outcome.token);
        window.Navigate(Push("/schedule"));
      } else {
        error := outcome.message;
      }
      loading := false;
    }
  }
}
