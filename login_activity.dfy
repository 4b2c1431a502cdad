/**
 * The login activity's handling of the OpenID Connect redirect (the implicit flow of
 * section 3.2 of OpenID Connect Core 1.0): the ID token is read out of the redirect URI's
 * fragment and handed to the Device Server login; success opens the main activity and a
 * failure is shown by the login screen.
 */
module LoginActivity {
  import opened Wrappers
  import opened JavaLang
  import DS = DeviceServer
  import LogInOrSignUp
  import Settings

  /**
   * `uri.toString().split("#")[1].split("=")[1]`: the second '='-piece of the second
   * '#'-piece. `None` is the index error either subscript throws when `split` (which drops
   * trailing empty pieces) returns fewer than two pieces.
   */
  function IdToken(uri: string): (r: Option<string>)
    ensures '#' !in uri ==> r.None?
    ensures r.Some? ==> '#' !in r.value && '=' !in r.value
  {
    var fragments := Split(uri, '#');
    if |fragments| < 2 then None
    else
      var fields := Split(fragments[1], '=');
      SplitAvoids(fragments[1], '=', '#');
      if |fields| < 2 then None else Some(fields[1])
  }

  /**
   * A redirect `p#k=v` followed by more `=`-separated text (or nothing) yields `v`, the
   * text up to the next '='. With `id_token=T&state=S` that is `T&state`: the token is the
   * first field only when it is the last parameter before any other `=`.
   */
  lemma IdTokenOfRedirect(p: string, k: string, v: string, w: string)
    requires '#' !in p && '#' !in k && '#' !in v && '#' !in w
    requires '=' !in k && '=' !in v && v != ""
    requires w == [] || w[0] == '='
    ensures IdToken(p + ['#'] + (k + ['='] + v + w)) == Some(v)
  {
    var frag := k + ['='] + v + w;
    SplitOfTwo(p, frag, '#');
    SplitSecondPiece(k, v, w, '=');
  }

  /** A redirect with nothing after its '#' has no second piece. */
  lemma IdTokenWithoutFragment(p: string)
    requires '#' !in p
    ensures IdToken(p + ['#']) == None
  {
    SplitOfTrailingSeparator(p, '#');
  }

  /** A fragment with no '=' has no second field. */
  lemma IdTokenWithoutEquals(p: string, f: string)
    requires '#' !in p && '#' !in f && '=' !in f && f != ""
    ensures IdToken(p + ['#'] + f) == None
  {
    SplitOfTwo(p, f, '#');
  }

  /** A parameter with an empty value (`k=` at the end) has no second field either. */
  lemma IdTokenWithEmptyValue(p: string, k: string)
    requires '#' !in p && '#' !in k && '=' !in k
    ensures IdToken(p + ['#'] + (k + ['='])) == None
  {
    SplitOfTwo(p, k + ['='], '#');
    SplitOfTrailingSeparator(k, '=');
  }

  /** What a new intent leads to. */
  datatype Dispatch =
    | Ignored                 // no URI in the intent
    | TokenIndexError         // the URI has no token where the code looks for it
    | OpenMainActivity        // the login succeeded
    | ShowLoginFailure(message: LogInOrSignUp.Message)

  class LogInActivity {
    /** The login screen the activity shows; it reports failures and owns the remember-me box. */
    const screen: LogInOrSignUp.LogInOrSignUpScreen
    const ds: DS.DsClient

    constructor (screen: LogInOrSignUp.LogInOrSignUpScreen, ds: DS.DsClient)
      ensures this.screen == screen && this.ds == ds
    {
      this.screen := screen;
      this.ds := ds;
    }

    /**
     * `onNewIntent` and `handleResponseIntent`: a URI is read for its token, which is
     * posted to the identity provider with the remember-me choice. Success opens the main
     * activity; a failure goes to the login screen's failure handling.
     */
    method OnNewIntent(uri: Option<string>, rememberMe: bool, now: int,
                       idpResp: DS.Response<Option<DS.IdpResult>>, apiResp: DS.Response<DS.Api>,
                       tokenResp: DS.Response<DS.OauthToken>)
      returns (outcome: Dispatch, result: Option<Result<(), DS.DsError>>, sent: seq<DS.Request>)
      modifies ds.prefs, screen`timeoutDue
      ensures result.None? <==> uri.None? || IdToken(uri.value).None?
      ensures uri.None? ==> outcome == Ignored
      ensures uri.Some? && IdToken(uri.value).None? ==> outcome == TokenIndexError
      ensures result.None? ==> sent == [] && ds.prefs.store == old(ds.prefs.store)
                               && screen.timeoutDue == old(screen.timeoutDue)
      ensures result.Some? ==> |sent| >= 1 && sent[0] == DS.IdpRequest(IdToken(uri.value).value)
      ensures result.Some? && result.value.Ok? ==>
        outcome == OpenMainActivity && screen.timeoutDue == old(screen.timeoutDue)
        && DS.Execute(idpResp).Ok? && DS.Execute(idpResp).value.Some? && DS.Execute(tokenResp).Ok?
        && var idp := DS.Execute(idpResp).value.value;
           var token := DS.Execute(tokenResp).value;
           var s := Settings.WithTokens(old(ds.prefs.store), token.accessToken, DS.ExpiryTime(now, token), token.refreshToken)
                      [Settings.USER_NAME := Settings.Text(idp.name)];
           ds.prefs.store == if rememberMe then s[Settings.AUTOLOGIN := Settings.Flag(true)] else s
      ensures result.Some? && result.value.Err? ==>
        outcome == ShowLoginFailure(LogInOrSignUp.LoginFailureMessage(result.value.error))
        && screen.timeoutDue.None?
        && ds.prefs.store == Settings.WithTokens(old(ds.prefs.store), "", 0, "")
    {
      sent := [];
      result := None;
      if uri.None? {
        return Ignored, result, sent;
      }
      var token := IdToken(uri.value);
      if token.None? {
        return TokenIndexError, result, sent;
      }
      var r;
      r, sent := ds.LoginWithIdToken(token.value, rememberMe, now, idpResp, apiResp, tokenResp);
      result := Some(r);
      if r.Ok? {
        outcome := OpenMainActivity;
      } else {
        var message := screen.OnLoginResult(r);
        outcome := ShowLoginFailure(message.value);
      }
    }
  }
}
