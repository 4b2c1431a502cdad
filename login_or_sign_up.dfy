/**
 * The welcome screen: the browser login through the identity provider's authorization
 * endpoint, the one-shot autologin with the stored refresh token, and its timeout.
 */
module LogInOrSignUp {
  import opened Wrappers
  import opened JavaLang
  import opened Constants
  import DeviceServer
  import Settings

  const AUTHORIZATION_ENDPOINT: string := "https://id.creatordev.io/oauth2/auth?"
  const CLIENT_ID: string := "41e2bb5a-8e66-43dc-a4bb-31b7a9041b8f"
  const REDIRECT_URI: string := "io.creatordev.iup:/callback"
  const STATE: string := "dummy_state"
  /** The autologin gives up after half a minute. */
  const LOGIN_TIMEOUT_MILLIS: int := SIXTY_SECONDS_MILLIS / 2

  const CLIENT_ID_PARAM: string := "client_id=" + CLIENT_ID
  const SCOPE_PARAM: string := "scope=core+openid+offline"
  const REDIRECT_URI_PARAM: string := "redirect_uri=" + REDIRECT_URI
  const STATE_PARAM: string := "state=" + STATE
  const RESPONSE_TYPE_PARAM: string := "response_type=id_token"

  function NonceParam(nonce: string): string
  {
    "nonce=" + nonce
  }

  /** The parameters of the authorization request, in the order they are written. */
  function AuthorizationParams(nonce: string): seq<string>
  {
    [CLIENT_ID_PARAM, SCOPE_PARAM, REDIRECT_URI_PARAM, STATE_PARAM, NonceParam(nonce), RESPONSE_TYPE_PARAM]
  }

  /** The query of the authorization request, written out as the screen concatenates it. */
  function AuthorizationQuery(nonce: string): string
  {
    CLIENT_ID_PARAM + "&" + SCOPE_PARAM + "&" + REDIRECT_URI_PARAM + "&" + STATE_PARAM + "&"
    + NonceParam(nonce) + "&" + RESPONSE_TYPE_PARAM
  }

  /** The URL opened in the browser; the nonce is a fresh random UUID. */
  function AuthorizationUrl(nonce: string): string
  {
    AUTHORIZATION_ENDPOINT + AuthorizationQuery(nonce)
  }

  /** Six pieces written out with a separator between each two are their join. */
  lemma JoinOfSix(a: string, b: string, c: string, d: string, e: string, f: string, sep: char)
    ensures a + [sep] + b + [sep] + c + [sep] + d + [sep] + e + [sep] + f == Join([a, b, c, d, e, f], sep)
  {
    var ps := [a, b, c, d, e, f];
    assert ps[1..][1..][1..][1..][1..] == [f];
    var j5 := e + [sep] + f;
    assert Join(ps[1..][1..][1..][1..], sep) == j5;
    var j4 := d + [sep] + j5;
    assert Join(ps[1..][1..][1..], sep) == j4;
    var j3 := c + [sep] + j4;
    assert Join(ps[1..][1..], sep) == j3;
    var j2 := b + [sep] + j3;
    assert Join(ps[1..], sep) == j2;
    assert Join(ps, sep) == a + [sep] + j2;
  }

  /** The concatenation is the parameters joined with '&'. */
  lemma AuthorizationQueryIsJoin(nonce: string)
    ensures AuthorizationQuery(nonce) == Join(AuthorizationParams(nonce), '&')
  {
    JoinOfSix(CLIENT_ID_PARAM, SCOPE_PARAM, REDIRECT_URI_PARAM, STATE_PARAM, NonceParam(nonce), RESPONSE_TYPE_PARAM, '&');
  }

  /** The fixed parameters contain no '&'. */
  lemma ClientIdParamAvoidsAmpersand()
    ensures '&' !in CLIENT_ID_PARAM
  {
    assert '&' !in CLIENT_ID;
  }

  lemma ScopeParamAvoidsAmpersand()
    ensures '&' !in SCOPE_PARAM
  {
  }

  lemma RedirectParamAvoidsAmpersand()
    ensures '&' !in REDIRECT_URI_PARAM
  {
    assert '&' !in REDIRECT_URI;
  }

  lemma StateParamAvoidsAmpersand()
    ensures '&' !in STATE_PARAM
  {
    assert '&' !in STATE;
  }

  lemma ResponseTypeParamAvoidsAmpersand()
    ensures '&' !in RESPONSE_TYPE_PARAM
  {
  }

  /** No parameter contains '&' when the nonce does not. */
  lemma ParamsAvoidAmpersand(nonce: string)
    requires '&' !in nonce
    ensures forall k :: 0 <= k < |AuthorizationParams(nonce)| ==> '&' !in AuthorizationParams(nonce)[k]
  {
    ClientIdParamAvoidsAmpersand();
    ScopeParamAvoidsAmpersand();
    RedirectParamAvoidsAmpersand();
    StateParamAvoidsAmpersand();
    ResponseTypeParamAvoidsAmpersand();
    assert '&' !in NonceParam(nonce);
  }

  /**
   * Reading the query back: for a nonce without '&' (a UUID has none), splitting the
   * query on '&' gives exactly the six parameters, the nonce among them.
   */
  lemma AuthorizationQueryReadsBack(nonce: string)
    requires '&' !in nonce
    ensures var url := AuthorizationUrl(nonce);
      StartsWith(url, AUTHORIZATION_ENDPOINT)
      && Fields(url[|AUTHORIZATION_ENDPOINT|..], '&') == AuthorizationParams(nonce)
  {
    var url := AuthorizationUrl(nonce);
    assert url[|AUTHORIZATION_ENDPOINT|..] == AuthorizationQuery(nonce);
    AuthorizationQueryIsJoin(nonce);
    var ps := AuthorizationParams(nonce);
    ParamsAvoidAmpersand(nonce);
    FieldsOfJoin(ps, '&');
  }

  datatype Message = LoginUnauthorizedMessage | LoginNotFoundMessage | NetworkMessage | UnknownMessage

  /** `handleLoginFailure`: Unauthorized, NotFound and Network each have their message; anything else is unknown. */
  function LoginFailureMessage(e: DeviceServer.DsError): (m: Message)
    ensures m == LoginUnauthorizedMessage <==> e == DeviceServer.Unauthorized
    ensures m == LoginNotFoundMessage <==> e == DeviceServer.NotFound
    ensures m == NetworkMessage <==> e == DeviceServer.Network
  {
    match e
    case Unauthorized => LoginUnauthorizedMessage
    case NotFound => LoginNotFoundMessage
    case Network => NetworkMessage
    case _ => UnknownMessage
  }

  /**
   * One resume: whether autologin is attempted, and whether it is still allowed afterwards.
   * An attempt needs both the stored flag and the allowance, and uses the allowance up;
   * an allowance once spent is never regained.
   */
  function AutologinStep(allowAutologin: bool, autologinEnabled: bool): (r: (bool, bool))
    ensures r.0 <==> autologinEnabled && allowAutologin
    ensures r.0 ==> !r.1
    ensures r.1 ==> allowAutologin
    ensures !r.0 ==> r.1 == allowAutologin
  {
    if autologinEnabled && allowAutologin then (true, false) else (false, allowAutologin)
  }

  /** How many autologin attempts a series of resumes makes, given the stored flag at each. */
  function Attempts(allowAutologin: bool, enabledAtResume: seq<bool>): nat
    decreases |enabledAtResume|
  {
    if |enabledAtResume| == 0 then 0
    else
      var step := AutologinStep(allowAutologin, enabledAtResume[0]);
      (if step.0 then 1 else 0) + Attempts(step.1, enabledAtResume[1..])
  }

  /** Autologin is attempted at most once per screen, whatever the stored flag does. */
  lemma {:induction false} AutologinAtMostOnce(allowAutologin: bool, enabledAtResume: seq<bool>)
    ensures Attempts(allowAutologin, enabledAtResume) <= (if allowAutologin then 1 else 0)
    decreases |enabledAtResume|
  {
    if |enabledAtResume| > 0 {
      var step := AutologinStep(allowAutologin, enabledAtResume[0]);
      AutologinAtMostOnce(step.1, enabledAtResume[1..]);
    }
  }

  class LogInOrSignUpScreen {
    var allowAutologin: bool
    /** When the login timeout fires, if it is armed. */
    var timeoutDue: Option<int>

    constructor ()
      ensures allowAutologin && timeoutDue.None?
    {
      allowAutologin := true;
      timeoutDue := None;
    }

    /** `onResume`: the first resume with autologin enabled starts the refresh-token login and its timeout. */
    method OnResume(now: int, prefs: Settings.Preferences) returns (attempted: bool)
      modifies this
      ensures (attempted, allowAutologin) == AutologinStep(old(allowAutologin), prefs.Autologin())
      ensures attempted ==> timeoutDue == Some(now + LOGIN_TIMEOUT_MILLIS)
      ensures !attempted ==> timeoutDue == old(timeoutDue)
    {
      attempted := false;
      if prefs.Autologin() && allowAutologin {
        allowAutologin := false;
        timeoutDue := Some(now + LOGIN_TIMEOUT_MILLIS);
        attempted := true;
      }
    }

    /** The login's answer cancels the timeout; a failure is shown as its message. */
    method OnLoginResult(result: Result<(), DeviceServer.DsError>) returns (message: Option<Message>)
      modifies this`timeoutDue
      ensures timeoutDue.None?
      ensures result.Ok? ==> message.None?
      ensures result.Err? ==> message == Some(LoginFailureMessage(result.error))
    {
      timeoutDue := None;
      message := if result.Ok? then None else Some(LoginFailureMessage(result.error));
    }

    /** The timeout shows the network message. */
    method OnLoginTimeout() returns (message: Message)
      requires timeoutDue.Some?
      modifies this`timeoutDue
      ensures timeoutDue.None? && message == NetworkMessage
    {
      timeoutDue := None;
      message := NetworkMessage;
    }
  }
}
