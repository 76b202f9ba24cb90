/** The login form and the session transition of `handleLogin`. */
module Login {
  import opened Outcomes
  import Storage
  import Api
  import App
  import RouteGuard

  /** The login response body: `null`/`undefined` (reading `.token` throws) or an object whose `token` may be absent. */
  datatype LoginBody = NullishBody | Payload(token: Option<string>)

  /** What `setItem` stores for the token: strings as they are, an absent token as the text "undefined". */
  function StoredToken(token: Option<string>): (s: string)
    ensures token.Some? ==> s == token.value
    ensures token.None? ==> s == "undefined"
  {
    match token
    case Some(t) => t
    case None => "undefined"
  }

  /** The login call resolved and its body could be read: the branch that writes the session. */
  predicate Succeeded(response: Settled<LoginBody>) {
    response.Resolved? && response.value.Payload?
  }

  /** The storage after `handleLogin`: token then username on success, untouched otherwise. */
  function AfterLogin(items: map<string, string>, username: string, response: Settled<LoginBody>): (r: map<string, string>)
    ensures Succeeded(response) ==> Storage.Token(r) == StoredToken(response.value.token)
    ensures Succeeded(response) ==> Storage.Username(r) == username
    ensures Storage.OthersUnchanged(items, r)
    ensures !Succeeded(response) ==> r == items
  {
    if Succeeded(response) then
      Storage.WithUsername(Storage.WithToken(items, StoredToken(response.value.token)), username)
    else
      items
  }

  /** Where `handleLogin` navigates: to the composer on success, nowhere on failure. */
  function LoginDestination(response: Settled<LoginBody>): (d: Option<string>)
    ensures d.Some? <==> Succeeded(response)
    ensures d.Some? ==> d.value == "/create-quote"
  {
    if Succeeded(response) then Some("/create-quote") else None
  }

  /**
   * After a successful login the page it navigates to is rendered, unless the
   * server returned an empty token; a missing token is stored as "undefined" and admits.
   */
  lemma LoginOpensGate(items: map<string, string>, username: string, response: Settled<LoginBody>)
    requires Succeeded(response)
    ensures RouteGuard.Admits(AfterLogin(items, username, response)) <==> response.value.token != Some("")
    ensures response.value.token != Some("") ==>
              App.Route(LoginDestination(response).value, AfterLogin(items, username, response))
                == Some(RouteGuard.Children([App.Navbar, App.Page(App.CreateQuoteView)]))
  {
  }

  /** The login page: its two form fields. */
  class LoginPage {
    var username: string
    var otp: string

    constructor ()
      ensures username == "" && otp == ""
    {
      username := "";
      otp := "";
    }

    method SetUsernameInput(value: string)
      modifies this
      ensures username == value && otp == old(otp)
    {
      username := value;
    }

    method SetOtp(value: string)
      modifies this
      ensures otp == value && username == old(username)
    {
      otp := value;
    }

    /**
     * `handleLogin`: sends the current field values; when the call settles
     * with `response`, writes the session as `AfterLogin` says and navigates.
     */
    method HandleLogin(store: Storage.SessionStore, response: Settled<LoginBody>)
      returns (request: Api.Request, navigateTo: Option<string>)
      modifies store
      ensures request == Api.Login(username, otp)
      ensures store.items == AfterLogin(old(store.items), username, response)
      ensures navigateTo == LoginDestination(response)
      ensures username == old(username) && otp == old(otp)
    {
      request := Api.Login(username, otp);
      navigateTo := None;
      match response {
        case Rejected =>
        case Resolved(body) =>
          match body {
            case NullishBody =>
            case Payload(token) =>
              store.SetToken(StoredToken(token));
              store.SetUsername(username);
              navigateTo := Some("/create-quote");
          }
      }
    }
  }
}
