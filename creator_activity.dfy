/**
 * The main activity: the drawer mode it picks on resume, the device-name request made
 * while a board is joined, and the "tap back twice to exit" rule.
 */
module MainActivity {
  import opened Wrappers
  import opened Navigation
  import WifiUtil
  import SetupGuide

  /** Two back presses closer than this exit the app. */
  const DOUBLE_TAP_WINDOW_MILLIS: int := 3000

  /** What a back press does. */
  datatype BackAction = PopBackStack | ExitApp | TapAgainToast

  /**
   * `onBackPressed`: with screens on the back stack it pops one; otherwise it exits when
   * the previous toasted press is recent, and else shows the toast and remembers the time.
   * The result is the action and the new last-press time.
   */
  function BackPress(lastBackClickTime: int, now: int, backStackCount: nat): (r: (BackAction, int))
    ensures backStackCount != 0 ==> r == (PopBackStack, lastBackClickTime)
    ensures backStackCount == 0 ==> (r.0 == ExitApp <==> now - lastBackClickTime < DOUBLE_TAP_WINDOW_MILLIS)
    ensures r.0 == TapAgainToast ==> r.1 == now
    ensures r.0 != TapAgainToast ==> r.1 == lastBackClickTime
  {
    if backStackCount == 0 then
      if now - lastBackClickTime < DOUBLE_TAP_WINDOW_MILLIS then (ExitApp, lastBackClickTime)
      else (TapAgainToast, now)
    else (PopBackStack, lastBackClickTime)
  }

  /** A press long after the last toast shows the toast; a second press within three seconds exits. */
  lemma DoubleTapExits(last: int, t1: int, t2: int)
    requires t1 - last >= DOUBLE_TAP_WINDOW_MILLIS && t1 <= t2 < t1 + DOUBLE_TAP_WINDOW_MILLIS
    ensures BackPress(last, t1, 0) == (TapAgainToast, t1)
    ensures BackPress(BackPress(last, t1, 0).1, t2, 0).0 == ExitApp
  {
  }

  /** Presses three seconds or more apart never exit: each one only shows the toast again. */
  lemma {:induction false} SlowTapsNeverExit(last: int, times: seq<int>)
    requires |times| > 0 ==> times[0] - last >= DOUBLE_TAP_WINDOW_MILLIS
    requires forall k :: 0 < k < |times| ==> times[k] - times[k - 1] >= DOUBLE_TAP_WINDOW_MILLIS
    ensures forall k :: 0 <= k < |times| ==> BackPress(if k == 0 then last else times[k - 1], times[k], 0).0 == TapAgainToast
  {
    forall k | 0 <= k < |times|
      ensures BackPress(if k == 0 then last else times[k - 1], times[k], 0).0 == TapAgainToast
    {
      var prev := if k == 0 then last else times[k - 1];
      assert times[k] - prev >= DOUBLE_TAP_WINDOW_MILLIS;
    }
  }

  /** `setProperUIMode`: a joined board wins, then a chosen device, else the initial mode. */
  function ProperMode(boardConnected: bool, deviceChosen: bool): (m: MenuMode)
    ensures m == Setup <==> boardConnected
    ensures m == Interactive <==> !boardConnected && deviceChosen
  {
    if boardConnected then Setup else if deviceChosen then Interactive else Initial
  }

  /**
   * The answer to the soft-AP device-name request: a body with the (nullable) name; a
   * status outside 2xx, which Retrofit also hands to `onResponse` but without a body; or a
   * transport failure.
   */
  datatype NameAnswer = NameReceived(name: Option<string>) | NoBody | RequestFailed

  class CreatorActivity {
    const drawer: NavigationDrawer
    var lastBackClickTime: int
    /** The toolbar title, as a text resource name. */
    var actionBarTitle: string

    /** `initUI` puts the drawer in the initial mode; no back press has happened yet. */
    constructor (drawer: NavigationDrawer)
      modifies drawer
      ensures this.drawer == drawer && lastBackClickTime == 0 && actionBarTitle == "connected_devices"
      ensures drawer.mode == Initial && drawer.items == ItemsFor(Initial)
      ensures drawer.checkedItem == old(drawer.checkedItem)
    {
      this.drawer := drawer;
      lastBackClickTime := 0;
      actionBarTitle := "connected_devices";
      new;
      drawer.RestartNavigationDrawer(Initial);
    }

    method OnBackPressed(now: int, backStackCount: nat) returns (action: BackAction)
      modifies this`lastBackClickTime
      ensures (action, lastBackClickTime) == BackPress(old(lastBackClickTime), now, backStackCount)
    {
      if backStackCount == 0 {
        if now - lastBackClickTime < DOUBLE_TAP_WINDOW_MILLIS {
          action := ExitApp;
        } else {
          action := TapAgainToast;
          lastBackClickTime := now;
        }
      } else {
        action := PopBackStack;
      }
    }

    /** `onSelectionAndTitleChange`: the item becomes the checked one; an item with a text also titles the toolbar. */
    method OnSelectionAndTitleChange(m: MenuItem)
      modifies drawer`checkedItem, this`actionBarTitle
      ensures drawer.checkedItem == m
      ensures TextId(m).Some? ==> actionBarTitle == TextId(m).value
      ensures TextId(m).None? ==> actionBarTitle == old(actionBarTitle)
    {
      drawer.SetSelectionState(m);
      var text := TextId(m);
      if text.Some? {
        actionBarTitle := text.value;
      }
    }

    /** `setUIMode`: restart the drawer in the given mode. */
    method SetUIMode(mode: MenuMode)
      modifies drawer
      ensures drawer.mode == mode && drawer.items == ItemsFor(mode)
      ensures drawer.checkedItem == old(drawer.checkedItem)
    {
      drawer.RestartNavigationDrawer(mode);
    }

    /** `setInteractiveToInitialMode`: only the interactive mode falls back to the initial one. */
    method SetInteractiveToInitialMode()
      modifies drawer
      ensures old(drawer.mode) == Interactive ==> drawer.mode == Initial && drawer.items == ItemsFor(Initial)
      ensures old(drawer.mode) != Interactive ==>
        (drawer.mode == old(drawer.mode) && drawer.items == old(drawer.items))
      ensures drawer.checkedItem == old(drawer.checkedItem)
    {
      if drawer.mode == Interactive {
        SetUIMode(Initial);
      }
    }

    /**
     * `onResume`: pick the mode, then, only while a board is joined, ask the board for its
     * name; a name received is stored in the wizard context and selects the setup mode.
     * A status outside 2xx comes without a body, so reading its name throws
     * (`nullBodyThrows`) before anything is stored.
     */
    method OnResume(wifi: WifiUtil.WifiUtil, deviceChosen: bool, info: SetupGuide.SetupGuideInfo, answer: NameAnswer)
      returns (requested: bool, connectivityToast: bool, nullBodyThrows: bool)
      modifies drawer, info
      ensures requested <==> wifi.IsBoardConnected()
      ensures drawer.mode == ProperMode(wifi.IsBoardConnected(), deviceChosen)
      ensures drawer.items == ItemsFor(drawer.mode) && drawer.checkedItem == old(drawer.checkedItem)
      ensures requested && answer.NameReceived? ==>
        info.Snapshot() == old(info.Snapshot()).(deviceName := answer.name)
      ensures !(requested && answer.NameReceived?) ==> info.Snapshot() == old(info.Snapshot())
      ensures connectivityToast <==> requested && answer.RequestFailed?
      ensures nullBodyThrows <==> requested && answer.NoBody?
    {
      var board := wifi.IsBoardConnected();
      SetUIMode(ProperMode(board, deviceChosen));
      requested := false;
      connectivityToast := false;
      nullBodyThrows := false;
      if board {
        requested := true;
        match answer
        case NameReceived(name) =>
          info.SetDeviceName(name);
          SetUIMode(Setup);
        case NoBody =>
          nullBodyThrows := true;
        case RequestFailed =>
          connectivityToast := true;
      }
    }
  }
}
