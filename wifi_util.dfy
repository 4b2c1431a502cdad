/**
 * WiFi board detection and saved-network bookkeeping, over an abstract view of the
 * phone's WiFi service: the last scan, the saved network configurations and the
 * current connection.
 */
module WifiUtil {
  import opened Wrappers
  import opened JavaLang
  import opened Constants

  /** The priority given to a newly saved board network. */
  const BOARD_NETWORK_PRIORITY: int := 40

  datatype ScanResult = ScanResult(ssid: string, bssid: Option<string>)

  /** A saved network: its id, its SSID (stored in double quotes) and first WEP key. */
  datatype WifiConfiguration = WifiConfiguration(networkId: int, ssid: string, wepKey0: string,
                                                 hiddenSsid: bool, priority: int)

  datatype ConnectionInfo = ConnectionInfo(ssid: Option<string>, bssid: Option<string>, networkId: int)

  /** `"\"" + ssid + "\""`, the form in which Android stores SSIDs. */
  function Quoted(ssid: string): string
  {
    "\"" + ssid + "\""
  }

  /** `createWifiConfiguration` given the id the system assigns when it is added. */
  function NewWepConfiguration(networkId: int, ssid: string, password: string): WifiConfiguration
  {
    WifiConfiguration(networkId, Quoted(ssid), password, true, BOARD_NETWORK_PRIORITY)
  }

  /** The first saved configuration whose stored SSID is exactly `stored`. */
  function FirstWithSsid(configs: seq<WifiConfiguration>, stored: string): (k: Option<nat>)
    ensures k.Some? ==> k.value < |configs| && configs[k.value].ssid == stored
    ensures k.Some? ==> forall j :: 0 <= j < k.value ==> configs[j].ssid != stored
    ensures k.None? ==> forall j :: 0 <= j < |configs| ==> configs[j].ssid != stored
  {
    if |configs| == 0 then None
    else if configs[0].ssid == stored then Some(0)
    else match FirstWithSsid(configs[1..], stored)
      case None => None
      case Some(j) => Some(j + 1)
  }

  /** Changing anything but the SSIDs of the saved networks does not change what a lookup finds. */
  lemma {:induction false} FirstWithSsidIgnoresKeys(configs: seq<WifiConfiguration>, k: nat, key: string, stored: string)
    requires k < |configs|
    ensures FirstWithSsid(configs[k := configs[k].(wepKey0 := key)], stored) == FirstWithSsid(configs, stored)
  {
    var updated := configs[k := configs[k].(wepKey0 := key)];
    if configs[0].ssid != stored && k > 0 {
      assert updated[1..] == configs[1..][k - 1 := configs[1..][k - 1].(wepKey0 := key)];
      FirstWithSsidIgnoresKeys(configs[1..], k - 1, key, stored);
    } else if configs[0].ssid != stored {
      assert updated[1..] == configs[1..];
    }
  }

  // ---------------------------------------------------------------- scan filter

  /** A scan result is a board when its BSSID, lower-cased, begins with the board prefix. */
  predicate IsBoardResult(r: ScanResult)
    requires r.bssid.Some?
  {
    StartsWith(ToLowerUS(r.bssid.value), BOARD_MAC_ADDRESS_PREFIX)
  }

  /** The SSIDs of board results, in scan order, for a scan whose BSSIDs are all known. */
  function BoardSsids(scan: seq<ScanResult>): seq<string>
    requires forall i :: 0 <= i < |scan| ==> scan[i].bssid.Some?
  {
    if |scan| == 0 then []
    else BoardSsids(scan[..|scan| - 1])
         + (if IsBoardResult(scan[|scan| - 1]) then [scan[|scan| - 1].ssid] else [])
  }

  /** Every SSID of a scan, in order. */
  function AllSsids(scan: seq<ScanResult>): (r: seq<string>)
    ensures |r| == |scan| && forall i :: 0 <= i < |scan| ==> r[i] == scan[i].ssid
  {
    seq(|scan|, i requires 0 <= i < |scan| => scan[i].ssid)
  }

  /** How many leading results of a scan have a known BSSID. */
  function KnownBssidPrefix(scan: seq<ScanResult>): (n: nat)
    ensures n <= |scan|
    ensures forall i :: 0 <= i < n ==> scan[i].bssid.Some?
    ensures n < |scan| ==> scan[n].bssid.None?
  {
    if |scan| == 0 || scan[0].bssid.None? then 0 else 1 + KnownBssidPrefix(scan[1..])
  }

  /** What a scan receiver hands its listener, and whether it threw while collecting it. */
  datatype Collection = Collection(ssids: seq<string>, threw: bool)

  /**
   * The receiver's result list: every SSID, or only the boards' SSIDs. In boards-only
   * mode a result without a BSSID throws (a null dereference), and the list collected
   * so far is what the listener receives.
   */
  function Collected(scan: seq<ScanResult>, boardsOnly: bool): (c: Collection)
    ensures !boardsOnly ==> !c.threw && c.ssids == AllSsids(scan)
    ensures boardsOnly ==> (c.threw <==> exists i :: 0 <= i < |scan| && scan[i].bssid.None?)
    ensures |c.ssids| <= |scan|
  {
    if !boardsOnly then Collection(AllSsids(scan), false)
    else
      var n := KnownBssidPrefix(scan);
      BoardSsidsLength(scan[..n]);
      Collection(BoardSsids(scan[..n]), n < |scan|)
  }

  /** An SSID is among the boards exactly when some board result carries it. */
  lemma {:induction false} BoardSsidsMembership(scan: seq<ScanResult>, s: string)
    requires forall i :: 0 <= i < |scan| ==> scan[i].bssid.Some?
    ensures s in BoardSsids(scan) <==> exists i :: 0 <= i < |scan| && scan[i].ssid == s && IsBoardResult(scan[i])
  {
    if |scan| > 0 {
      var p := scan[..|scan| - 1];
      BoardSsidsMembership(p, s);
      assert forall i :: 0 <= i < |p| ==> p[i] == scan[i];
    }
  }

  /** The boards list is never longer than the scan. */
  lemma {:induction false} BoardSsidsLength(scan: seq<ScanResult>)
    requires forall i :: 0 <= i < |scan| ==> scan[i].bssid.Some?
    ensures |BoardSsids(scan)| <= |scan|
  {
    if |scan| > 0 {
      BoardSsidsLength(scan[..|scan| - 1]);
    }
  }

  /** The loop of `WifiScanReceiver.onReceive`. */
  method CollectSsids(scan: seq<ScanResult>, boardsOnly: bool) returns (result: seq<string>, threw: bool)
    ensures Collection(result, threw) == Collected(scan, boardsOnly)
  {
    result := [];
    threw := false;
    var i := 0;
    if boardsOnly {
      var n := KnownBssidPrefix(scan);
      while i < |scan|
        invariant 0 <= i <= n
        invariant result == BoardSsids(scan[..i])
      {
        var wifi := scan[i];
        if wifi.bssid.None? {
          threw := true;
          break;
        }
        assert scan[..i + 1][..i] == scan[..i];
        if StartsWith(ToLowerUS(wifi.bssid.value), BOARD_MAC_ADDRESS_PREFIX) {
          result := result + [wifi.ssid];
        }
        i := i + 1;
      }
      assert i == n;
    } else {
      while i < |scan|
        invariant 0 <= i <= |scan|
        invariant result == AllSsids(scan[..i])
      {
        result := result + [scan[i].ssid];
        i := i + 1;
      }
      assert scan[..i] == scan;
    }
  }

  /**
   * A scan receiver: delivers one result list to its listener and unregisters itself;
   * after the first receipt it has dropped its WiFi service and listener.
   */
  class WifiScanReceiver {
    const boardsOnly: bool
    var registered: bool
    var attached: bool

    constructor (boardsOnly: bool)
      ensures this.boardsOnly == boardsOnly && registered && attached
    {
      this.boardsOnly := boardsOnly;
      registered := true;
      attached := true;
    }

    /**
     * `onReceive`: the listener is called with the collected list even when the filter
     * throws; the receiver then unregisters and lets go of the service and listener, so
     * a later receipt throws at once and calls no listener.
     */
    method OnReceive(scan: seq<ScanResult>) returns (delivered: Option<seq<string>>, threw: bool)
      modifies this
      ensures !registered && !attached
      ensures old(attached) ==> delivered == Some(Collected(scan, boardsOnly).ssids) && threw == Collected(scan, boardsOnly).threw
      ensures !old(attached) ==> delivered == None && threw
    {
      if attached {
        var result;
        result, threw := CollectSsids(scan, boardsOnly);
        delivered := Some(result);
      } else {
        delivered := None;
        threw := true;
      }
      registered := false;
      attached := false;
    }
  }

  // ---------------------------------------------------------------- the WiFi service

  class WifiUtil {
    var configured: seq<WifiConfiguration>
    var connection: ConnectionInfo
    /** A WiFi network is connected (the connectivity service's WiFi network info). */
    var wifiConnected: bool
    /** The active network, WiFi or mobile, is connected. */
    var internetConnected: bool
    var wifiEnabled: bool
    var originalNetworkId: int

    /** Saved networks have the non-negative ids the system assigns. */
    ghost predicate Valid()
      reads this
    {
      forall i :: 0 <= i < |configured| ==> configured[i].networkId >= 0
    }

    constructor (configured: seq<WifiConfiguration>, connection: ConnectionInfo,
                 wifiConnected: bool, internetConnected: bool, wifiEnabled: bool)
      requires forall i :: 0 <= i < |configured| ==> configured[i].networkId >= 0
      ensures Valid()
      ensures this.configured == configured && this.connection == connection
      ensures this.wifiConnected == wifiConnected && this.internetConnected == internetConnected
      ensures this.wifiEnabled == wifiEnabled && originalNetworkId == 0
    {
      this.configured := configured;
      this.connection := connection;
      this.wifiConnected := wifiConnected;
      this.internetConnected := internetConnected;
      this.wifiEnabled := wifiEnabled;
      originalNetworkId := 0;
    }

    /** `getCurrentWifiSSID`: the connection's SSID with every double quote removed; null stays null. */
    function CurrentWifiSsid(): (r: Option<string>)
      reads this
      ensures r.None? <==> connection.ssid.None?
      ensures r.Some? ==> '"' !in r.value
    {
      match connection.ssid
      case None => None
      case Some(s) => Some(RemoveChar(s, '"'))
    }

    /**
     * `isBoardConnected`: WiFi is up and the BSSID begins with the board prefix,
     * case-sensitively. A BSSID recognised here also passes the scan filter.
     */
    function IsBoardConnected(): (r: bool)
      reads this
      ensures r ==> wifiConnected && connection.bssid.Some?
                    && IsBoardResult(ScanResult("", connection.bssid))
    {
      if wifiConnected && connection.bssid.Some? && StartsWith(connection.bssid.value, BOARD_MAC_ADDRESS_PREFIX)
      then
        var b := connection.bssid.value;
        assert ToLowerUS(b)[..|BOARD_MAC_ADDRESS_PREFIX|] == BOARD_MAC_ADDRESS_PREFIX by {
          forall i | 0 <= i < |BOARD_MAC_ADDRESS_PREFIX|
            ensures ToLowerUS(b)[i] == BOARD_MAC_ADDRESS_PREFIX[i]
          {
            assert b[i] == BOARD_MAC_ADDRESS_PREFIX[i];
          }
        }
        true
      else false
    }

    /** `isInternetNotBoardConnected`: an Internet connection that is not the board's. */
    predicate IsInternetNotBoardConnected()
      reads this
    {
      internetConnected && !IsBoardConnected()
    }

    /** `isWifiNotBoardConnected`: a WiFi connection that is not the board's. */
    predicate IsWifiNotBoardConnected()
      reads this
    {
      wifiConnected && !IsBoardConnected()
    }

    /**
     * The three connection states: while WiFi is up, exactly one of "board" and "WiFi but
     * not the board" holds; without WiFi neither does; the board never counts as Internet.
     */
    lemma ConnectionStates()
      ensures wifiConnected ==> (IsBoardConnected() <==> !IsWifiNotBoardConnected())
      ensures !wifiConnected ==> !IsBoardConnected() && !IsWifiNotBoardConnected()
      ensures IsBoardConnected() ==> !IsInternetNotBoardConnected()
      ensures IsInternetNotBoardConnected() ==> internetConnected
    {
    }

    /** `getConfiguredNetworkId`: the id of the network saved as `"ssid"`, or -1. */
    method ConfiguredNetworkId(ssid: string) returns (id: int)
      requires Valid()
      ensures id == -1 <==> FirstWithSsid(configured, Quoted(ssid)).None?
      ensures id != -1 ==> id == configured[FirstWithSsid(configured, Quoted(ssid)).value].networkId
    {
      var stored := Quoted(ssid);
      var i := 0;
      while i < |configured|
        invariant 0 <= i <= |configured|
        invariant forall j :: 0 <= j < i ==> configured[j].ssid != stored
      {
        if configured[i].ssid == stored {
          return configured[i].networkId;
        }
        i := i + 1;
      }
      return -1;
    }

    /**
     * The saved networks and the answer `connectToWepNetwork` leaves: a saved network gets the
     * new key when updates are allowed, otherwise a new one is added when the system assigns an id.
     */
    static function WepConnect(configs: seq<WifiConfiguration>, ssid: string, password: string, assignedId: int,
                               updateAccepted: bool, enableAccepts: int -> bool): (seq<WifiConfiguration>, bool)
    {
      var k := FirstWithSsid(configs, Quoted(ssid));
      if k.None? then
        (configs + (if assignedId == -1 then [] else [NewWepConfiguration(assignedId, ssid, password)]),
         enableAccepts(assignedId))
      else if !updateAccepted then (configs, false)
      else (configs[k.value := configs[k.value].(wepKey0 := password)], enableAccepts(configs[k.value].networkId))
    }

    /**
     * `connectToWepNetwork`. `assignedId` is what adding a network returns (-1 when the
     * system refuses), `updateAccepted` whether updating a saved one is allowed, and
     * `enableAccepts` the system's answer to enabling a network id.
     */
    method ConnectToWepNetwork(ssid: string, password: string, assignedId: int, updateAccepted: bool,
                               enableAccepts: int -> bool)
      returns (ok: bool)
      requires Valid() && assignedId >= -1
      modifies this
      ensures Valid()
      ensures originalNetworkId == old(connection.networkId) && wifiEnabled
      ensures connection == old(connection)
      ensures wifiConnected == old(wifiConnected) && internetConnected == old(internetConnected)
      ensures var k := FirstWithSsid(old(configured), Quoted(ssid));
        (k.None? ==>
           configured == old(configured) + (if assignedId == -1 then [] else [NewWepConfiguration(assignedId, ssid, password)])
           && ok == enableAccepts(assignedId))
        && (k.Some? && !updateAccepted ==> configured == old(configured) && !ok)
        && (k.Some? && updateAccepted ==>
              configured == old(configured)[k.value := old(configured)[k.value].(wepKey0 := password)]
              && ok == enableAccepts(old(configured)[k.value].networkId))
      ensures (configured, ok) == WepConnect(old(configured), ssid, password, assignedId, updateAccepted, enableAccepts)
    {
      originalNetworkId := connection.networkId;
      wifiEnabled := true;
      var networkId := ConfiguredNetworkId(ssid);
      if networkId == -1 {
        if assignedId != -1 {
          configured := configured + [NewWepConfiguration(assignedId, ssid, password)];
        }
        networkId := assignedId;
      } else {
        if !updateAccepted {
          return false;
        }
        var k := FirstWithSsid(configured, Quoted(ssid)).value;
        FirstWithSsidIgnoresKeys(configured, k, password, Quoted(ssid));
        configured := configured[k := configured[k].(wepKey0 := password)];
        networkId := ConfiguredNetworkId(ssid);
      }
      ok := enableAccepts(networkId);
    }

    /** `enableChosenNetwork`: enable the first saved network whose stored SSID equals `ssid` verbatim. */
    method EnableChosenNetwork(ssid: string, enableAccepts: int -> bool) returns (ok: bool)
      ensures var k := FirstWithSsid(configured, ssid);
        ok == (k.Some? && enableAccepts(configured[k.value].networkId))
    {
      var i := 0;
      while i < |configured|
        invariant 0 <= i <= |configured|
        invariant forall j :: 0 <= j < i ==> configured[j].ssid != ssid
      {
        if ssid == configured[i].ssid {
          return enableAccepts(configured[i].networkId);
        }
        i := i + 1;
      }
      return false;
    }

    /** `setOriginalNetworkId` */
    method SetOriginalNetworkId(networkId: int)
      modifies this`originalNetworkId
      ensures originalNetworkId == networkId
    {
      originalNetworkId := networkId;
    }
  }

  /** A network saved by the app is found again by its plain SSID, and read back without quotes. */
  lemma SavedNetworkFoundByPlainSsid(configs: seq<WifiConfiguration>, id: int, ssid: string, password: string)
    requires FirstWithSsid(configs, Quoted(ssid)).None?
    ensures var k := FirstWithSsid(configs + [NewWepConfiguration(id, ssid, password)], Quoted(ssid));
      k == Some(|configs|)
  {
    var all := configs + [NewWepConfiguration(id, ssid, password)];
    assert forall j :: 0 <= j < |configs| ==> all[j] == configs[j];
    FirstWithSsidOfAppend(configs, NewWepConfiguration(id, ssid, password), Quoted(ssid));
  }

  lemma {:induction false} FirstWithSsidOfAppend(configs: seq<WifiConfiguration>, c: WifiConfiguration, stored: string)
    requires FirstWithSsid(configs, stored).None? && c.ssid == stored
    ensures FirstWithSsid(configs + [c], stored) == Some(|configs|)
  {
    if |configs| > 0 {
      assert (configs + [c])[1..] == configs[1..] + [c];
      FirstWithSsidOfAppend(configs[1..], c, stored);
    }
  }

  /** Quoting then reading the current SSID back gives the plain SSID. */
  lemma CurrentSsidUnquotes(w: WifiUtil, ssid: string)
    requires w.connection.ssid == Some(Quoted(ssid)) && '"' !in ssid
    ensures w.CurrentWifiSsid() == Some(ssid)
  {
    UnquoteQuoted(ssid);
  }

  /**
   * A board BSSID written with upper-case hexadecimal letters in its prefix passes the scan
   * filter, which lower-cases first, but is not recognised as a connected board, which
   * compares case-sensitively.
   */
  lemma BoardMatchIsCaseSensitiveOnlyWhenConnected(w: WifiUtil, ssid: string, b: string)
    requires w.wifiConnected && w.connection.bssid == Some(b)
    requires StartsWith(ToLowerUS(b), BOARD_MAC_ADDRESS_PREFIX) && !StartsWith(b, BOARD_MAC_ADDRESS_PREFIX)
    ensures IsBoardResult(ScanResult(ssid, Some(b)))
    ensures !w.IsBoardConnected()
  {
  }

  /** One such BSSID: the prefix is "00:1e:c0", so "00:1E:C0:…" is one. */
  lemma UpperCaseBoardBssid()
    ensures var b := "00:1E:C0:00:00:01";
      StartsWith(ToLowerUS(b), BOARD_MAC_ADDRESS_PREFIX) && !StartsWith(b, BOARD_MAC_ADDRESS_PREFIX)
  {
    var b := "00:1E:C0:00:00:01";
    assert ToLowerUS(b)[..8] == BOARD_MAC_ADDRESS_PREFIX;
    assert b[..8] != BOARD_MAC_ADDRESS_PREFIX by { assert b[4] != BOARD_MAC_ADDRESS_PREFIX[4]; }
  }
}
