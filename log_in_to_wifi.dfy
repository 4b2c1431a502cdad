/**
 * The setup-wizard screen where the user enters the WiFi network the board should join:
 * form validation, assembly of the network configuration, and the chain of soft-AP calls
 * that hands the configuration to the board and reboots it.
 */
module LogInToWifi {
  import opened Wrappers
  import opened JavaLang
  import opened Constants
  import opened Payloads

  /** Android's SSID when there is no WiFi connectivity. */
  const UNKNOWN_SSID: string := "<unknown ssid>"

  datatype SecurityProtocol = WEP | WPA | WPA2 | OPEN

  /** The label sent as the encryption of each protocol. */
  function ProtocolLabel(p: SecurityProtocol): string
  {
    match p
    case WEP => "WEP"
    case WPA => "WPA"
    case WPA2 => "WPA2"
    case OPEN => "OPEN"
  }

  /** The addressing-method labels. */
  const DHCP_LABEL: string := "DHCP"
  const STATIC_IP_LABEL: string := "STATIC"

  /**
   * The screen's choices and the texts of its fields: the network shown as the phone's
   * current one, the manual SSID, the password and the four static-addressing fields.
   */
  datatype Form = Form(protocol: SecurityProtocol, isManual: bool, isStaticIp: bool,
                       shownNetwork: string, ssid: string, password: string,
                       staticIp: string, staticDns: string, staticNetmask: string, staticGateway: string)

  /** The first problem validation reports. */
  datatype FieldError =
    | PasswordRequired
    | WirelessNameRequired
    | StaticIpRequired
    | DnsRequired
    | NetmaskRequired
    | GatewayRequired
    | SsidIsWrong

  /**
   * `validatePassword`, which also decides whether the connect button is enabled: 8 to 64
   * characters, so a form whose password enables the button never lacks a password.
   */
  predicate ValidatePassword(password: string)
    ensures ValidatePassword(password) ==>
              forall f: Form :: f.password == password ==> Validate(f) != Some(PasswordRequired)
  {
    MIN_WIFI_PASSWORD_LENGTH <= |password| <= MAX_WIFI_PASSWORD_LENGTH
  }

  /** Everything a submittable form needs, stated independently of the order of the checks. */
  predicate Acceptable(f: Form)
  {
    (f.protocol == OPEN || f.password != "")
    && (f.isManual ==> f.ssid != "")
    && (f.isManual && f.isStaticIp ==>
          f.staticIp != "" && f.staticDns != "" && f.staticNetmask != "" && f.staticGateway != "")
    && !EqualsIgnoreCase(f.shownNetwork, UNKNOWN_SSID)
  }

  /** `validate`: checks the fields in screen order and reports the first empty one. */
  function Validate(f: Form): (r: Option<FieldError>)
    ensures r.None? <==> Acceptable(f)
    ensures r == Some(PasswordRequired) <==> f.protocol != OPEN && f.password == ""
    ensures r == Some(WirelessNameRequired) ==> f.isManual && f.ssid == ""
    ensures r in {Some(StaticIpRequired), Some(DnsRequired), Some(NetmaskRequired), Some(GatewayRequired)} ==>
              f.isManual && f.isStaticIp
    ensures r == Some(SsidIsWrong) <==>
              (Acceptable(f.(shownNetwork := "")) && EqualsIgnoreCase(f.shownNetwork, UNKNOWN_SSID))
  {
    if f.protocol != OPEN && f.password == "" then Some(PasswordRequired)
    else if f.isManual && f.ssid == "" then Some(WirelessNameRequired)
    else if f.isManual && f.isStaticIp && f.staticIp == "" then Some(StaticIpRequired)
    else if f.isManual && f.isStaticIp && f.staticDns == "" then Some(DnsRequired)
    else if f.isManual && f.isStaticIp && f.staticNetmask == "" then Some(NetmaskRequired)
    else if f.isManual && f.isStaticIp && f.staticGateway == "" then Some(GatewayRequired)
    else if EqualsIgnoreCase(f.shownNetwork, UNKNOWN_SSID) then Some(SsidIsWrong)
    else None
  }

  /** `getNetworkConfig`: the configuration the board is sent. */
  function NetworkConfigOf(f: Form): (c: NetworkConfig)
    ensures c.HasRequiredElements()
    ensures c.ssid == Some(if f.isManual then f.ssid else f.shownNetwork)
    ensures c.encryption == Some(ProtocolLabel(f.protocol)) && c.password == Some(f.password)
    ensures c.addrMethod == Some(if f.isStaticIp then STATIC_IP_LABEL else DHCP_LABEL)
    ensures f.isStaticIp ==>
              (c.staticIp == Some(f.staticIp) && c.staticDns == Some(f.staticDns)
               && c.staticNetmask == Some(f.staticNetmask) && c.staticGateway == Some(f.staticGateway))
    ensures !f.isStaticIp ==> c.staticIp.None? && c.staticDns.None? && c.staticNetmask.None? && c.staticGateway.None?
  {
    var ssid := Some(if f.isManual then f.ssid else f.shownNetwork);
    if f.isStaticIp then
      NetworkConfig(ssid, Some(ProtocolLabel(f.protocol)), Some(f.password), Some(STATIC_IP_LABEL),
                    Some(f.staticDns), Some(f.staticIp), Some(f.staticNetmask), Some(f.staticGateway))
    else
      DhcpNetworkConfig(ssid, Some(ProtocolLabel(f.protocol)), Some(f.password), Some(DHCP_LABEL))
  }

  /** A configuration built from a form that passed validation in manual mode names a network. */
  lemma ValidManualConfigNamesNetwork(f: Form)
    requires Validate(f).None? && f.isManual
    ensures NetworkConfigOf(f).ssid.value != ""
    ensures f.isStaticIp ==>
              (NetworkConfigOf(f).staticIp.value != "" && NetworkConfigOf(f).staticDns.value != ""
               && NetworkConfigOf(f).staticNetmask.value != "" && NetworkConfigOf(f).staticGateway.value != "")
  {
  }

  /**
   * An open network passes validation whatever its password, yet the connect button stays
   * disabled until the password field holds 8 to 64 characters: a shown network of any
   * length but that of "<unknown ssid>" is accepted with a short or empty password.
   */
  lemma OpenNetworkConnectNeedsPassword(f: Form, p: string)
    requires f.protocol == OPEN && |p| < MIN_WIFI_PASSWORD_LENGTH
    ensures Validate(f.(password := p)) == Validate(f)
    ensures !ValidatePassword(p)
    ensures !f.isManual && |f.shownNetwork| != |UNKNOWN_SSID| ==> Validate(f.(password := p)).None?
  {
    if |f.shownNetwork| != |UNKNOWN_SSID| {
      assert |ToLowerUS(f.shownNetwork)| != |ToLowerUS(UNKNOWN_SSID)|;
    }
  }

  // ---------------------------------------------------------------- the screen

  /** The choices the screen's listeners change. */
  class LogInToWifiScreen {
    var protocol: SecurityProtocol
    var isManual: bool
    var isStaticIp: bool

    /** WPA2, the shown network and DHCP are the starting choices. */
    constructor ()
      ensures protocol == WPA2 && !isManual && !isStaticIp
    {
      protocol := WPA2;
      isManual := false;
      isStaticIp := false;
    }

    method OnSecurityProtocolChecked(p: SecurityProtocol)
      modifies this`protocol
      ensures protocol == p
    {
      protocol := p;
    }

    /** "Manual configuration" switches to the SSID field for good. */
    method OnManualConfigurationClicked()
      modifies this`isManual
      ensures isManual
    {
      isManual := true;
    }

    method OnAddressingChecked(staticIp: bool)
      modifies this`isStaticIp
      ensures isStaticIp == staticIp
    {
      isStaticIp := staticIp;
    }

    /** The form as the screen's choices and the given field texts make it. */
    function FormOf(shownNetwork: string, ssid: string, password: string, staticIp: string,
                    staticDns: string, staticNetmask: string, staticGateway: string): (f: Form)
      reads this
      ensures f.protocol == protocol && f.isManual == isManual && f.isStaticIp == isStaticIp
    {
      Form(protocol, isManual, isStaticIp, shownNetwork, ssid, password, staticIp, staticDns, staticNetmask, staticGateway)
    }
  }

  // ---------------------------------------------------------------- provisioning

  /** The delay between an answer from the board and the next call. */
  const STEP_DELAY_MILLIS: int := 1000

  /** The board's soft-AP calls. */
  datatype SoftApCall = SetNetworkConfig(config: NetworkConfig) | SetDeviceServer(server: DeviceServerConfig) | RebootDevice

  /**
   * How a call ended: any HTTP answer (whatever its status), or a transport failure.
   * `attached` says whether the screen is attached (added, with its menu listener set) when
   * the step that follows runs: for an answer, the delayed next call or, after the reboot,
   * the screen change; for a failure, its handler.
   */
  datatype Delivery = Answered(at: int, attached: bool) | TransportFailed(attached: bool)

  /**
   * Where the chain ends: the connecting screen, a toast, nothing shown (the screen was
   * detached), or a throw when a delayed call reaches a detached screen's missing activity.
   */
  datatype ChainEnd =
    | ShowConnectingScreen | CheckConnectivityToast | ConnectionFailureToast
    | NothingShown | DetachedActivityThrows

  /** The calls sent, each with the time it is sent, and where the chain ended. */
  datatype Chain = Chain(calls: seq<(int, SoftApCall)>, end: ChainEnd)

  /** The Device Server record sent to the board: the bootstrap URL and the PSK credentials. */
  function PskDeviceServer(bootstrapUrl: Option<string>, pskIdentity: Option<string>, pskSecret: Option<string>): DeviceServerConfig
  {
    DeviceServerConfig(bootstrapUrl, Some("PSK"), pskIdentity, pskSecret, None, None)
  }

  /** An answer whose delayed follow-up runs on an attached screen. */
  predicate Proceeds(d: Delivery)
  {
    d.Answered? && d.attached
  }

  /**
   * `performConnectWithDevice` and its callbacks: configuration, then one second after the
   * answer the Device Server record, then one second after that answer the reboot. The
   * connectivity toast and the connecting screen need an attached screen; the toast for a
   * failed reboot does not. A delayed call reads the application through `getActivity()`,
   * which a detached screen no longer has.
   */
  function Provision(now: int, config: NetworkConfig, bootstrapUrl: Option<string>, pskIdentity: Option<string>,
                     pskSecret: Option<string>, first: Delivery, second: Delivery, third: Delivery): (c: Chain)
    ensures 1 <= |c.calls| <= 3 && c.calls[0] == (now, SetNetworkConfig(config))
    ensures |c.calls| >= 2 <==> Proceeds(first)
    ensures |c.calls| == 3 <==> Proceeds(first) && Proceeds(second)
    ensures c.end == ShowConnectingScreen <==> Proceeds(first) && Proceeds(second) && Proceeds(third)
    ensures c.end == CheckConnectivityToast <==>
              (first.TransportFailed? && first.attached)
              || (Proceeds(first) && second.TransportFailed? && second.attached)
    ensures c.end == ConnectionFailureToast <==> Proceeds(first) && Proceeds(second) && third.TransportFailed?
    ensures c.end == DetachedActivityThrows <==>
              (first.Answered? && !first.attached) || (Proceeds(first) && second.Answered? && !second.attached)
  {
    var sendConfig := (now, SetNetworkConfig(config));
    match first
    case TransportFailed(attached) => Chain([sendConfig], if attached then CheckConnectivityToast else NothingShown)
    case Answered(t1, attached1) =>
      if !attached1 then Chain([sendConfig], DetachedActivityThrows)
      else
        var sendServer := (t1 + STEP_DELAY_MILLIS, SetDeviceServer(PskDeviceServer(bootstrapUrl, pskIdentity, pskSecret)));
        match second
        case TransportFailed(attached) =>
          Chain([sendConfig, sendServer], if attached then CheckConnectivityToast else NothingShown)
        case Answered(t2, attached2) =>
          if !attached2 then Chain([sendConfig, sendServer], DetachedActivityThrows)
          else
            var calls := [sendConfig, sendServer, (t2 + STEP_DELAY_MILLIS, RebootDevice)];
            match third
            case TransportFailed(_) => Chain(calls, ConnectionFailureToast)
            case Answered(_, attached3) => Chain(calls, if attached3 then ShowConnectingScreen else NothingShown)
  }

  /**
   * When the first two calls are answered on an attached screen, the three calls go out in
   * order, each a second after the previous answer, whatever becomes of the reboot.
   */
  lemma ProvisionSendsThreeCalls(now: int, config: NetworkConfig, bootstrapUrl: Option<string>,
                                 pskIdentity: Option<string>, pskSecret: Option<string>, t1: int, t2: int, third: Delivery)
    ensures Provision(now, config, bootstrapUrl, pskIdentity, pskSecret, Answered(t1, true), Answered(t2, true), third).calls
            == [(now, SetNetworkConfig(config)),
                (t1 + 1000, SetDeviceServer(DeviceServerConfig(bootstrapUrl, Some("PSK"), pskIdentity, pskSecret, None, None))),
                (t2 + 1000, RebootDevice)]
  {
  }
}
