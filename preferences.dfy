/**
 * The app's persistent settings: a key-value store (Android SharedPreferences)
 * read through typed getters that fall back to a default when a key was never written.
 */
module Settings {
  /** A stored value; each key is only ever written with one of these shapes. */
  datatype Value = Text(text: string) | Long(number: int) | Flag(on: bool)

  const EMAIL_CREDENTIAL: string := "EMAIL_CREDENTIAL"
  const INTERACTIVE_MODE_HAS_STARTED_AT_LEAST_ONCE: string := "INTERACTIVE_MODE_HAS_STARTED_AT_LEAST_ONCE"
  const USER_NAME: string := "USER_NAME"
  const DS_ACCESS_TOKEN: string := "DS_ACCESS_TOKEN"
  const DS_ACCESS_TOKEN_EXPIRY_TIME: string := "DS_ACCESS_TOKEN_EXPIRY_TIME"
  const DS_REFRESH_TOKEN: string := "DS_REFRESH_TOKEN"
  const AUTOLOGIN: string := "AUTOLOGIN"

  /** `getString(key, default)` */
  function GetString(store: map<string, Value>, key: string, default: string): string
  {
    if key in store && store[key].Text? then store[key].text else default
  }

  /** `getLong(key, default)` */
  function GetLong(store: map<string, Value>, key: string, default: int): int
  {
    if key in store && store[key].Long? then store[key].number else default
  }

  /** `getBoolean(key, default)` */
  function GetBoolean(store: map<string, Value>, key: string, default: bool): bool
  {
    if key in store && store[key].Flag? then store[key].on else default
  }

  /** The three token keys written together by the Device Server client. */
  function WithTokens(store: map<string, Value>, access: string, expiry: int, refresh: string): map<string, Value>
  {
    store[DS_ACCESS_TOKEN := Text(access)][DS_ACCESS_TOKEN_EXPIRY_TIME := Long(expiry)][DS_REFRESH_TOKEN := Text(refresh)]
  }

  /** Writing the token keys changes the three token getters and nothing else. */
  lemma WithTokensReadBack(store: map<string, Value>, access: string, expiry: int, refresh: string)
    ensures var s := WithTokens(store, access, expiry, refresh);
      GetString(s, DS_ACCESS_TOKEN, "") == access && GetLong(s, DS_ACCESS_TOKEN_EXPIRY_TIME, 0) == expiry
      && GetString(s, DS_REFRESH_TOKEN, "") == refresh
      && (forall k :: k in store && k !in {DS_ACCESS_TOKEN, DS_ACCESS_TOKEN_EXPIRY_TIME, DS_REFRESH_TOKEN} ==> k in s && s[k] == store[k])
  {
  }

  /** A second token write overwrites the first one completely. */
  lemma WithTokensOverwrites(store: map<string, Value>, a1: string, e1: int, r1: string, a2: string, e2: int, r2: string)
    ensures WithTokens(WithTokens(store, a1, e1, r1), a2, e2, r2) == WithTokens(store, a2, e2, r2)
  {
  }

  class Preferences {
    var store: map<string, Value>

    /** A fresh store: every getter gives its default. */
    constructor ()
      ensures store == map[]
      ensures UserName() == "" && AccessToken() == "" && RefreshToken() == ""
      ensures AccessTokenExpiryTime() == 0 && !Autologin()
    {
      store := map[];
    }

    function UserName(): string reads this { GetString(store, USER_NAME, "") }
    function AccessToken(): string reads this { GetString(store, DS_ACCESS_TOKEN, "") }
    function RefreshToken(): string reads this { GetString(store, DS_REFRESH_TOKEN, "") }
    function AccessTokenExpiryTime(): int reads this { GetLong(store, DS_ACCESS_TOKEN_EXPIRY_TIME, 0) }
    function Autologin(): bool reads this { GetBoolean(store, AUTOLOGIN, false) }

    method InteractiveModeHasStartedAtLeastOnce()
      modifies this
      ensures store == old(store)[INTERACTIVE_MODE_HAS_STARTED_AT_LEAST_ONCE := Flag(true)]
    {
      store := store[INTERACTIVE_MODE_HAS_STARTED_AT_LEAST_ONCE := Flag(true)];
    }

    method SaveEmailCredential(email: string)
      modifies this
      ensures store == old(store)[EMAIL_CREDENTIAL := Text(email)]
    {
      store := store[EMAIL_CREDENTIAL := Text(email)];
    }

    method SaveUserName(name: string)
      modifies this
      ensures store == old(store)[USER_NAME := Text(name)]
      ensures UserName() == name
    {
      store := store[USER_NAME := Text(name)];
    }

    method SetAccessToken(token: string)
      modifies this
      ensures store == old(store)[DS_ACCESS_TOKEN := Text(token)]
      ensures AccessToken() == token
    {
      store := store[DS_ACCESS_TOKEN := Text(token)];
    }

    method SetRefreshToken(token: string)
      modifies this
      ensures store == old(store)[DS_REFRESH_TOKEN := Text(token)]
      ensures RefreshToken() == token
    {
      store := store[DS_REFRESH_TOKEN := Text(token)];
    }

    method SetAccessTokenExpiry(millis: int)
      modifies this
      ensures store == old(store)[DS_ACCESS_TOKEN_EXPIRY_TIME := Long(millis)]
      ensures AccessTokenExpiryTime() == millis
    {
      store := store[DS_ACCESS_TOKEN_EXPIRY_TIME := Long(millis)];
    }

    method SetAutologin(on: bool)
      modifies this
      ensures store == old(store)[AUTOLOGIN := Flag(on)]
      ensures Autologin() == on
    {
      store := store[AUTOLOGIN := Flag(on)];
    }
  }
}
