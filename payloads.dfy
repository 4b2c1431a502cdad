/**
 * The two records the app sends to a board in soft-AP mode: the WiFi network the board
 * should join, and the Device Server it should register with. Java's nullable strings are
 * `Option<string>`.
 */
module Payloads {
  import opened Wrappers

  /**
   * `NetworkConfig`, in the order of its 8-argument constructor. There is no getter for
   * the password: it is sent but never read back.
   */
  datatype NetworkConfig = NetworkConfig(ssid: Option<string>, encryption: Option<string>,
                                         password: Option<string>, addrMethod: Option<string>,
                                         staticDns: Option<string>, staticIp: Option<string>,
                                         staticNetmask: Option<string>, staticGateway: Option<string>)
  {
    /** SSID is the one required element of the serialised record. */
    predicate HasRequiredElements()
    {
      ssid.Some?
    }
  }

  /** The 4-argument constructor: the static addressing fields stay null. */
  function DhcpNetworkConfig(ssid: Option<string>, encryption: Option<string>, password: Option<string>,
                             addrMethod: Option<string>): (c: NetworkConfig)
    ensures c.staticDns.None? && c.staticIp.None? && c.staticNetmask.None? && c.staticGateway.None?
    ensures c.ssid == ssid && c.encryption == encryption && c.password == password && c.addrMethod == addrMethod
  {
    NetworkConfig(ssid, encryption, password, addrMethod, None, None, None, None)
  }

  /** `DeviceServer`, in the order of its 6-argument constructor. */
  datatype DeviceServerConfig = DeviceServerConfig(bootstrapUrl: Option<string>, securityMode: Option<string>,
                                                   publicKey: Option<string>, privateKey: Option<string>,
                                                   certificate: Option<string>, bootstrapCertChain: Option<string>)
  {
    /** BootstrapUrl and SecurityMode are the required elements of the serialised record. */
    predicate HasRequiredElements()
    {
      bootstrapUrl.Some? && securityMode.Some?
    }
  }

  /** The 3-argument constructor: the keys and the certificate chain stay null. */
  function CertificateDeviceServer(bootstrapUrl: Option<string>, securityMode: Option<string>,
                                   certificate: Option<string>): (d: DeviceServerConfig)
    ensures d.publicKey.None? && d.privateKey.None? && d.bootstrapCertChain.None?
    ensures d.bootstrapUrl == bootstrapUrl && d.securityMode == securityMode && d.certificate == certificate
  {
    DeviceServerConfig(bootstrapUrl, securityMode, None, None, certificate, None)
  }
}
