/**
 * The sign-up form: the user name is lower-cased, every field is checked and flagged,
 * and the Device Server's answer becomes a message or a saved e-mail credential.
 */
module SignUp {
  import opened JavaLang
  import opened Constants
  import opened Wrappers
  import DeviceServer
  import Settings

  /** The shortest user name and password the form accepts. */
  const MINIMUM_FIELD_LENGTH: nat := 5

  datatype Field = Username | Email | Password

  /** The user name as it is validated and sent: lower-cased in the US locale. */
  function NormalizedUsername(typed: string): string
  {
    ToLowerUS(typed)
  }

  /**
   * `validate`: every field is checked, so every failing field is flagged, not just the
   * first. Whether the e-mail matches the platform's address pattern is `emailMatches`.
   */
  function FlaggedFields(username: string, email: string, password: string, emailMatches: string -> bool): (r: set<Field>)
    ensures Username in r <==> |username| < MINIMUM_FIELD_LENGTH
    ensures Email in r <==> !emailMatches(email)
    ensures Password in r <==> !(MINIMUM_FIELD_LENGTH <= |password| <= DEFAULT_MAXIMUM_FIELD_CHARACTERS_COUNT)
  {
    (if |username| < MINIMUM_FIELD_LENGTH then {Username} else {})
    + (if !emailMatches(email) then {Email} else {})
    + (if |password| < MINIMUM_FIELD_LENGTH || |password| > DEFAULT_MAXIMUM_FIELD_CHARACTERS_COUNT then {Password} else {})
  }

  /**
   * The form is valid when no field is flagged: the user name has at least five
   * characters, the e-mail matches, and the password has five to thirty-two.
   */
  predicate Validate(username: string, email: string, password: string, emailMatches: string -> bool)
    ensures Validate(username, email, password, emailMatches) <==>
              |username| >= MINIMUM_FIELD_LENGTH && emailMatches(email)
              && MINIMUM_FIELD_LENGTH <= |password| <= DEFAULT_MAXIMUM_FIELD_CHARACTERS_COUNT
  {
    var flagged := FlaggedFields(username, email, password, emailMatches);
    assert flagged != {} <==> Username in flagged || Email in flagged || Password in flagged by {
      if flagged != {} {
        var f :| f in flagged;
        assert f == Username || f == Email || f == Password;
      }
    }
    flagged == {}
  }

  /**
   * The sign-up button is enabled once the password has the account minimum of
   * characters; every password that passes validation enables it.
   */
  predicate SignUpEnabled(password: string)
    ensures forall username, email, emailMatches ::
              Validate(username, email, password, emailMatches) ==> SignUpEnabled(password)
  {
    |password| >= CREATOR_ACCOUNT_MINIMUM_CHARACTERS_COUNT
  }

  /** The user name has only ASCII characters, the ones whose case folding the model states. */
  predicate IsAscii(s: string)
  {
    forall i :: 0 <= i < |s| ==> s[i] < 128 as char
  }

  /** For an ASCII user name, lower-casing never changes whether it is long enough. */
  lemma UsernameCheckIgnoresCase(typed: string, email: string, password: string, emailMatches: string -> bool)
    requires IsAscii(typed)
    ensures Username in FlaggedFields(NormalizedUsername(typed), email, password, emailMatches)
            <==> |typed| < MINIMUM_FIELD_LENGTH
  {
  }

  /** A password that enables the button can still fail validation: the button ignores the 32-character maximum. */
  lemma EnabledButTooLong(username: string, email: string, password: string, emailMatches: string -> bool)
    requires |password| == DEFAULT_MAXIMUM_FIELD_CHARACTERS_COUNT + 1
    ensures SignUpEnabled(password)
    ensures !Validate(username, email, password, emailMatches)
  {
    assert Password in FlaggedFields(username, email, password, emailMatches);
  }

  datatype Message = ConflictMessage | NetworkMessage | UnknownMessage

  /** `handleSignUpError`: Conflict and Network have their own messages, anything else is unknown. */
  function SignUpErrorMessage(e: DeviceServer.DsError): (m: Message)
    ensures m == ConflictMessage <==> e == DeviceServer.Conflict
    ensures m == NetworkMessage <==> e == DeviceServer.Network
  {
    match e
    case Conflict => ConflictMessage
    case Network => NetworkMessage
    case _ => UnknownMessage
  }

  /** The answer to a sign-up: success saves the lower-cased user name as the e-mail credential. */
  method OnSignUpResult(prefs: Settings.Preferences, username: string, result: Result<(), DeviceServer.DsError>)
    returns (message: Option<Message>)
    modifies prefs
    ensures result.Ok? ==> message.None? && prefs.store == old(prefs.store)[Settings.EMAIL_CREDENTIAL := Settings.Text(username)]
    ensures result.Err? ==> message == Some(SignUpErrorMessage(result.error)) && prefs.store == old(prefs.store)
  {
    if result.Ok? {
      prefs.SaveEmailCredential(username);
      message := None;
    } else {
      message := Some(SignUpErrorMessage(result.error));
    }
  }
}
