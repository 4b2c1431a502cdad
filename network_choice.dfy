/**
 * The wizard's network list: in board mode it lists the boards' soft-AP networks, otherwise
 * every network in range. A completed scan is sorted in place and becomes the shown list;
 * a click records the chosen SSID in the wizard context and moves on.
 */
module NetworkChoice {
  import opened Wrappers
  import opened Sorting
  import SetupGuide
  import FragmentFactory

  /** The SSID itself is the sort key: the list is in `String.compareTo` order. */
  function SsidKey(ssid: string): string
  {
    ssid
  }

  /** The two scans the screen can ask for. */
  datatype ScanRequest = BoardWifiList | AvailableWifiList

  class NetworkChoiceScreen {
    /** The `IS_BOARD_WIFI_LIST_FRAGMENT_ARG` argument. */
    const isBoardWifiList: bool
    /** The shown list: the scan's own list object, once a scan has completed. */
    var ssids: array<string>

    constructor (isBoardWifiList: bool)
      ensures this.isBoardWifiList == isBoardWifiList && ssids.Length == 0
    {
      this.isBoardWifiList := isBoardWifiList;
      ssids := new string[0];
    }

    /** `updateUI`: board mode asks for the boards-only scan, the other mode for every network. */
    function ScanOnResume(): (r: ScanRequest)
      reads this
      ensures r == BoardWifiList <==> isBoardWifiList
    {
      if isBoardWifiList then BoardWifiList else AvailableWifiList
    }

    /**
     * `onWifiScanCompleted`: while the screen is attached the scanned list is sorted in place
     * and kept as the shown list (the same object, not a copy).
     */
    method OnWifiScanCompleted(wifiSsids: array<string>, attached: bool)
      modifies this`ssids, wifiSsids
      ensures attached ==> ssids == wifiSsids
      ensures attached ==> SortedBy(ssids[..], SsidKey) && multiset(ssids[..]) == multiset(old(wifiSsids[..]))
      ensures !attached ==> ssids == old(ssids) && wifiSsids[..] == old(wifiSsids[..])
    {
      if attached {
        SortBy(wifiSsids, SsidKey);
        ssids := wifiSsids;
      }
    }

    /**
     * A click on the list: board mode records the SSID as the board's and opens the key
     * screen; the other mode records it as the user's network and opens the WiFi form.
     */
    method OnItemClick(position: int, info: SetupGuide.SetupGuideInfo, attached: bool)
      returns (next: Option<FragmentFactory.Screen>)
      requires 0 <= position < ssids.Length
      modifies info
      ensures !attached ==> next.None? && info.Snapshot() == old(info.Snapshot())
      ensures attached && isBoardWifiList ==>
        (info.Snapshot() == old(info.Snapshot()).(boardSsid := Some(ssids[position]))
         && next == Some(FragmentFactory.LoginToDevice))
      ensures attached && !isBoardWifiList ==>
        (info.Snapshot() == old(info.Snapshot()).(ssid := Some(ssids[position]))
         && next == Some(FragmentFactory.LogInToWifi))
    {
      next := None;
      if attached {
        if isBoardWifiList {
          info.SetBoardSsid(Some(ssids[position]));
          next := Some(FragmentFactory.CreateFragment(FragmentFactory.LOGIN_TO_DEVICE_TAG));
        } else {
          info.SetSsid(Some(ssids[position]));
          next := Some(FragmentFactory.CreateFragment(FragmentFactory.LOG_IN_TO_WIFI_TAG));
        }
      }
    }
  }
}
