/**
 * The screens of the app and the factory that creates a screen from its tag, with the
 * device list as the fallback for a tag it does not know.
 */
module FragmentFactory {
  /** The screens the factory creates. The network choice carries its board-list flag. */
  datatype Screen =
    | SetUpWifireDevice
    | SetupMode
    | LoginToDevice
    | LogInToWifi
    | Connecting
    | About
    | DeviceInfo
    | CreatorDeviceInfo
    | LogInOrSignUp
    | ConnectedDevices
    | Interactive
    | FetchCertificate
    | NetworkChoice(isBoardWifiList: bool)

  const SET_UP_WIFIRE_DEVICE_TAG: string := "SetUpAWifireDeviceFragment"
  const SETUP_MODE_TAG: string := "SetupModeFragment"
  const LOGIN_TO_DEVICE_TAG: string := "LoginToDeviceFragment"
  const LOG_IN_TO_WIFI_TAG: string := "LogInToWifiFragment"
  const CONNECTING_TAG: string := "ConnectingFragment"
  const ABOUT_TAG: string := "AboutFragment"
  const DEVICE_INFO_TAG: string := "DeviceInfoFragment"
  const CREATOR_DEVICE_INFO_TAG: string := "CreatorDeviceInfoFragment"
  const LOG_IN_OR_SIGN_UP_TAG: string := "LogInOrSignUpFragment"
  const CONNECTED_DEVICES_TAG: string := "ConnectedDevicesFragment"
  const INTERACTIVE_TAG: string := "InteractiveFragment"
  const FETCH_CERTIFICATE_TAG: string := "FetchCertificateFragment"
  const NETWORK_CHOICE_TAG: string := "NetworkChoiceFragment"
  /** A screen the creator factory has no case for. */
  const NO_CONNECTED_DEVICES_TAG: string := "NoConnectedDevicesFragment"

  /** Each screen's TAG constant. */
  function Tag(s: Screen): string
  {
    match s
    case SetUpWifireDevice => SET_UP_WIFIRE_DEVICE_TAG
    case SetupMode => SETUP_MODE_TAG
    case LoginToDevice => LOGIN_TO_DEVICE_TAG
    case LogInToWifi => LOG_IN_TO_WIFI_TAG
    case Connecting => CONNECTING_TAG
    case About => ABOUT_TAG
    case DeviceInfo => DEVICE_INFO_TAG
    case CreatorDeviceInfo => CREATOR_DEVICE_INFO_TAG
    case LogInOrSignUp => LOG_IN_OR_SIGN_UP_TAG
    case ConnectedDevices => CONNECTED_DEVICES_TAG
    case Interactive => INTERACTIVE_TAG
    case FetchCertificate => FETCH_CERTIFICATE_TAG
    case NetworkChoice(_) => NETWORK_CHOICE_TAG
  }

  /** The twelve tags the one-argument factory knows. */
  const KNOWN_TAGS: set<string> := {
    SET_UP_WIFIRE_DEVICE_TAG, SETUP_MODE_TAG, LOGIN_TO_DEVICE_TAG, LOG_IN_TO_WIFI_TAG, CONNECTING_TAG,
    ABOUT_TAG, DEVICE_INFO_TAG, CREATOR_DEVICE_INFO_TAG, LOG_IN_OR_SIGN_UP_TAG, CONNECTED_DEVICES_TAG,
    INTERACTIVE_TAG, FETCH_CERTIFICATE_TAG}

  /** `createFragment(tag)`: the switch over the twelve tags; anything else is the device list. */
  function CreateFragment(tag: string): (s: Screen)
    ensures tag !in KNOWN_TAGS ==> s == ConnectedDevices
    ensures !s.NetworkChoice?
  {
    if tag == SET_UP_WIFIRE_DEVICE_TAG then SetUpWifireDevice
    else if tag == SETUP_MODE_TAG then SetupMode
    else if tag == LOGIN_TO_DEVICE_TAG then LoginToDevice
    else if tag == LOG_IN_TO_WIFI_TAG then LogInToWifi
    else if tag == CONNECTING_TAG then Connecting
    else if tag == ABOUT_TAG then About
    else if tag == DEVICE_INFO_TAG then DeviceInfo
    else if tag == CREATOR_DEVICE_INFO_TAG then CreatorDeviceInfo
    else if tag == LOG_IN_OR_SIGN_UP_TAG then LogInOrSignUp
    else if tag == CONNECTED_DEVICES_TAG then ConnectedDevices
    else if tag == INTERACTIVE_TAG then Interactive
    else if tag == FETCH_CERTIFICATE_TAG then FetchCertificate
    else ConnectedDevices
  }

  /** `createFragment(tag, isSomething)`: only the network choice, with the flag passed on. */
  function CreateFragmentWithFlag(tag: string, isSomething: bool): (s: Screen)
    ensures s == NetworkChoice(isSomething) <==> tag == NETWORK_CHOICE_TAG
    ensures tag != NETWORK_CHOICE_TAG ==> s == ConnectedDevices
  {
    if tag == NETWORK_CHOICE_TAG then NetworkChoice(isSomething) else ConnectedDevices
  }

  /** The factory inverts `Tag`: each of the twelve screens is created from its own tag. */
  lemma CreateFragmentOfTag(s: Screen)
    requires !s.NetworkChoice?
    ensures Tag(s) in KNOWN_TAGS
    ensures CreateFragment(Tag(s)) == s
  {
  }

  /** The network choice's tag is not among the twelve, so the one-argument factory ignores it. */
  lemma NetworkChoiceNeedsFlag(flag: bool)
    ensures NETWORK_CHOICE_TAG !in KNOWN_TAGS
    ensures CreateFragment(Tag(NetworkChoice(flag))) == ConnectedDevices
    ensures CreateFragmentWithFlag(Tag(NetworkChoice(flag)), flag) == NetworkChoice(flag)
  {
  }
}
