/**
 * The navigation drawer: the menu items, the item list of each mode, the checked item,
 * which screen an item opens, and what signing out clears.
 */
module Navigation {
  import opened Wrappers
  import Settings
  import FF = FragmentFactory

  /** The menu items, in declaration order. */
  datatype MenuItem = UserName | MyDevice | Commands | ConfigureWifi | Separator | ConnectedDevices
                    | SetupDevice | About | SignOut

  /** The drawer's modes: no board, a board in soft-AP mode, a device chosen from the list. */
  datatype MenuMode = Initial | Setup | Interactive

  /** The item's text resource; `None` is the text id -1. */
  function TextId(m: MenuItem): (r: Option<string>)
    ensures r.None? <==> m == UserName || m == Separator
  {
    match m
    case UserName => None
    case MyDevice => Some("wifire")
    case Commands => Some("commands")
    case ConfigureWifi => Some("configure_wifi")
    case Separator => None
    case ConnectedDevices => Some("connected_devices")
    case SetupDevice => Some("setup_device")
    case About => Some("about")
    case SignOut => Some("log_out")
  }

  /** The item's icon resource; `None` is the icon id -1. */
  function IconId(m: MenuItem): (r: Option<string>)
    ensures r.None? <==> m == Separator
  {
    match m
    case UserName => Some("ic_account_circle_black_24dp")
    case MyDevice => Some("ic_developer_board_black_24dp")
    case Commands => Some("ic_touch_app_black_24dp")
    case ConfigureWifi => Some("ic_wifi_black_24dp")
    case Separator => None
    case ConnectedDevices => Some("ic_devices_black_24dp")
    case SetupDevice => Some("ic_phonelink_setup_black_24dp")
    case About => Some("ic_info_outline_black_24dp")
    case SignOut => Some("ic_exit_to_app_black_24dp")
  }

  const InitialValues: seq<MenuItem> := [UserName, ConnectedDevices, SetupDevice, About, SignOut]
  const WifiNetworkModeValues: seq<MenuItem> :=
    [UserName, Separator, MyDevice, ConfigureWifi, Separator, ConnectedDevices, SetupDevice, About, SignOut]
  const InteractiveModeValues: seq<MenuItem> :=
    [UserName, Separator, MyDevice, Commands, Separator, ConnectedDevices, SetupDevice, About, SignOut]

  /** The board and device menus differ only in their fourth item. */
  lemma ModeMenusDifferOnlyAtFourthItem()
    ensures |WifiNetworkModeValues| == |InteractiveModeValues| == 9
    ensures WifiNetworkModeValues[3] == ConfigureWifi && InteractiveModeValues[3] == Commands
    ensures forall k :: 0 <= k < 9 && k != 3 ==> WifiNetworkModeValues[k] == InteractiveModeValues[k]
  {
  }

  /** The item list `restartNavigationDrawer` gives each mode. */
  function ItemsFor(mode: MenuMode): (items: seq<MenuItem>)
    ensures |items| >= 5 && items[0] == UserName && items[|items| - 1] == SignOut
    ensures mode == Initial <==> MyDevice !in items
  {
    match mode
    case Initial => InitialValues
    case Setup => WifiNetworkModeValues
    case Interactive => InteractiveModeValues
  }

  /** `isEnabled`: the user-name row and the separators cannot be clicked. */
  function IsEnabled(items: seq<MenuItem>, position: int): (r: bool)
    requires 0 <= position < |items|
    ensures r <==> items[position] != UserName && items[position] != Separator
  {
    if items[position] == UserName then false else items[position] != Separator
  }

  /** The rows that cannot be clicked: the first in the initial menu, the first, second and fifth otherwise. */
  lemma DisabledRows(mode: MenuMode)
    ensures var items := ItemsFor(mode);
      forall k :: 0 <= k < |items| ==>
        (!IsEnabled(items, k) <==> (k == 0 || (mode != Initial && (k == 1 || k == 4))))
  {
  }

  /** `getSelectedItemTag`: the tag of the screen an item opens; My device depends on the mode. */
  function SelectedItemTag(m: MenuItem, mode: MenuMode): (tag: string)
    ensures m == SignOut ==> tag == ""
    ensures m == MyDevice ==> (tag == "" <==> mode == Initial)
  {
    match m
    case MyDevice =>
      (match mode
       case Setup => FF.DEVICE_INFO_TAG
       case Interactive => FF.CREATOR_DEVICE_INFO_TAG
       case Initial => "")
    case Commands => FF.INTERACTIVE_TAG
    case ConfigureWifi => FF.LOG_IN_TO_WIFI_TAG
    case ConnectedDevices => FF.CONNECTED_DEVICES_TAG
    case SetupDevice => FF.SET_UP_WIFIRE_DEVICE_TAG
    case About => FF.ABOUT_TAG
    case SignOut => ""
    case _ => FF.CONNECTED_DEVICES_TAG
  }

  /** The screen each item is meant to open, stated per item and mode. */
  function Destination(m: MenuItem, mode: MenuMode): FF.Screen
  {
    match m
    case MyDevice =>
      if mode == Setup then FF.DeviceInfo
      else if mode == Interactive then FF.CreatorDeviceInfo
      else FF.ConnectedDevices
    case Commands => FF.Interactive
    case ConfigureWifi => FF.LogInToWifi
    case SetupDevice => FF.SetUpWifireDevice
    case About => FF.About
    case _ => FF.ConnectedDevices
  }

  /** Every item but Sign out opens its destination through the factory; an empty tag falls back to the device list. */
  lemma SelectedItemOpensDestination(m: MenuItem, mode: MenuMode)
    requires m != SignOut
    ensures FF.CreateFragment(SelectedItemTag(m, mode)) == Destination(m, mode)
  {
    match m
    case MyDevice =>
      if mode == Setup {
        FF.CreateFragmentOfTag(FF.DeviceInfo);
      } else if mode == Interactive {
        FF.CreateFragmentOfTag(FF.CreatorDeviceInfo);
      } else {
        assert "" !in FF.KNOWN_TAGS;
      }
    case Commands => FF.CreateFragmentOfTag(FF.Interactive);
    case ConfigureWifi => FF.CreateFragmentOfTag(FF.LogInToWifi);
    case SetupDevice => FF.CreateFragmentOfTag(FF.SetUpWifireDevice);
    case About => FF.CreateFragmentOfTag(FF.About);
    case _ => FF.CreateFragmentOfTag(FF.ConnectedDevices);
  }

  /** The title shown on the My device row. */
  datatype Title = TitleUnset | TitleText(text: Option<string>)

  /**
   * `fillDeviceInfo`: the chosen device's name in interactive mode, the wizard's device
   * name in setup mode; nothing is set in the initial mode.
   */
  function MyDeviceTitle(mode: MenuMode, chosenDeviceName: string, wizardDeviceName: Option<string>): (t: Title)
    ensures t.TitleUnset? <==> mode == Initial
    ensures mode == Interactive ==> t == TitleText(Some(chosenDeviceName))
    ensures mode == Setup ==> t == TitleText(wizardDeviceName)
  {
    match mode
    case Interactive => TitleText(Some(chosenDeviceName))
    case Setup => TitleText(wizardDeviceName)
    case Initial => TitleUnset
  }

  /**
   * The drawer with the two globals it drives: the menu mode and the checked item. `items`
   * is the current adapter's item array.
   */
  class NavigationDrawer {
    var mode: MenuMode
    var checkedItem: MenuItem
    var items: seq<MenuItem>

    /** The checked item starts as Connected devices; creating the view restarts the drawer in the initial mode. */
    constructor ()
      ensures mode == Initial && checkedItem == ConnectedDevices && items == InitialValues
    {
      mode := Initial;
      checkedItem := ConnectedDevices;
      items := InitialValues;
    }

    predicate IsChecked(m: MenuItem)
      reads this
    {
      m == checkedItem
    }

    /** `restartNavigationDrawer`: set the mode, then show that mode's items. */
    method RestartNavigationDrawer(newMode: MenuMode)
      modifies this`mode, this`items
      ensures mode == newMode && items == ItemsFor(newMode)
    {
      mode := newMode;
      items := ItemsFor(newMode);
    }

    /** `setSelectionState`: the item becomes the checked one, and only it. */
    method SetSelectionState(m: MenuItem)
      modifies this`checkedItem
      ensures checkedItem == m
      ensures forall other :: IsChecked(other) <==> other == m
    {
      checkedItem := m;
    }

    /** The settings after a logout: autologin off and both tokens emptied, every other key kept. */
    static function LoggedOut(store: map<string, Settings.Value>): map<string, Settings.Value>
    {
      store[Settings.AUTOLOGIN := Settings.Flag(false)]
        [Settings.DS_REFRESH_TOKEN := Settings.Text("")][Settings.DS_ACCESS_TOKEN := Settings.Text("")]
    }

    /**
     * `logoutUser`: back to the initial mode with autologin off and both tokens emptied;
     * the posted follow-up makes Connected devices the checked item again.
     */
    method LogoutUser(prefs: Settings.Preferences)
      modifies this`mode, this`checkedItem, prefs
      ensures mode == Initial && checkedItem == ConnectedDevices && items == old(items)
      ensures prefs.store == LoggedOut(old(prefs.store))
      ensures !prefs.Autologin() && prefs.RefreshToken() == "" && prefs.AccessToken() == ""
      ensures prefs.UserName() == old(prefs.UserName())
      ensures prefs.AccessTokenExpiryTime() == old(prefs.AccessTokenExpiryTime())
    {
      mode := Initial;
      prefs.SetAutologin(false);
      prefs.SetRefreshToken("");
      prefs.SetAccessToken("");
      SetSelectionState(ConnectedDevices);
    }

    /**
     * `selectFragment`: Sign out logs out; any other item opens its screen with the back
     * stack cleared and becomes the checked item. Nothing happens while detached.
     */
    method SelectFragment(m: MenuItem, prefs: Settings.Preferences, attached: bool)
      returns (shown: Option<FF.Screen>)
      modifies this`mode, this`checkedItem, prefs
      ensures items == old(items)
      ensures !attached ==> shown.None? && mode == old(mode) && checkedItem == old(checkedItem)
                            && prefs.store == old(prefs.store)
      ensures attached && m != SignOut ==>
        (shown == Some(Destination(m, old(mode))) && checkedItem == m
         && mode == old(mode) && prefs.store == old(prefs.store))
      ensures attached && m == SignOut ==>
        (shown.None? && mode == Initial && checkedItem == ConnectedDevices
         && prefs.store == LoggedOut(old(prefs.store))
         && !prefs.Autologin() && prefs.RefreshToken() == "" && prefs.AccessToken() == "")
    {
      shown := None;
      if attached {
        if m != SignOut {
          SelectedItemOpensDestination(m, mode);
          shown := Some(FF.CreateFragment(SelectedItemTag(m, mode)));
          SetSelectionState(m);
        } else {
          LogoutUser(prefs);
        }
      }
    }
  }
}
