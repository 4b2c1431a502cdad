/** Thresholds and fixed values shared by the screens of the app. */
module Constants {
  /**
   * The longest user name or password the sign-up form accepts. The Java field is a
   * mutable static that nothing reassigns, so its initial value is taken as a constant.
   */
  const DEFAULT_MAXIMUM_FIELD_CHARACTERS_COUNT: nat := 32
  /** Length of a 64-bit WEP key written in hexadecimal. */
  const WEP_64_BIT_SECRET_KEY_HEXADECIMAL_LENGTH: nat := 10
  const MIN_WIFI_PASSWORD_LENGTH: nat := 8
  const MAX_WIFI_PASSWORD_LENGTH: nat := 64
  const CREATOR_ACCOUNT_MINIMUM_CHARACTERS_COUNT: nat := 5
  /** Every WiFire board's access point has a BSSID beginning with this vendor prefix. */
  const BOARD_MAC_ADDRESS_PREFIX: string := "00:1e:c0"
  /** The client names that identify a board among the Device Server's clients. */
  const DEVICE_TYPES: seq<string> := ["WiFire"]
  const TWO_SECONDS_MILLIS: int := 2000
  const THIRTY_SECONDS_MILLIS: int := 30000
  const SIXTY_SECONDS_MILLIS: int := 60000
}
