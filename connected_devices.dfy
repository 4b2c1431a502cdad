/**
 * The device list: the account's Device Server clients whose name marks them as WiFire
 * boards, sorted by name with the first row selected; the adapter's contextual
 * (multi-select) marks; and the "interact" button that makes the selected board the
 * current device.
 */
module ConnectedDevices {
  import opened Wrappers
  import opened JavaLang
  import opened Sorting
  import opened Wifire
  import DS = DeviceServer
  import Nav = Navigation
  import Main = MainActivity
  import Settings
  import FF = FragmentFactory

  /** Only clients whose name starts with this are boards. */
  const WIFIRE_NAME_PREFIX: string := "WiFire"
  /** The page the list asks for: from the first client, at most a hundred. */
  const START_INDEX: int := 0
  const PAGE_SIZE: int := 100

  predicate IsWifire(c: DS.Client)
  {
    StartsWith(c.name, WIFIRE_NAME_PREFIX)
  }

  /** The boards among the clients, in response order. */
  function WifireClients(clients: seq<DS.Client>): (r: seq<WifireDevice>)
    ensures |r| <= |clients|
    ensures forall k :: 0 <= k < |r| ==> IsWifire(r[k].client) && r[k].client in clients
    ensures forall c :: c in clients && IsWifire(c) ==> WifireDevice(c) in r
    decreases |clients|
  {
    if |clients| == 0 then []
    else
      var last := clients[|clients| - 1];
      var init := WifireClients(clients[..|clients| - 1]);
      assert clients == clients[..|clients| - 1] + [last];
      if IsWifire(last) then init + [WifireDevice(last)] else init
  }

  /** The clients list holds no board exactly when the filtered list is empty. */
  lemma NoWifireClients(clients: seq<DS.Client>)
    ensures WifireClients(clients) == [] <==> forall c :: c in clients ==> !IsWifire(c)
  {
  }

  /** The `onSuccess` loop: append each client whose name marks a board. */
  method FilterDevices(clients: seq<DS.Client>) returns (devices: seq<WifireDevice>)
    ensures devices == WifireClients(clients)
  {
    devices := [];
    var i := 0;
    while i < |clients|
      invariant 0 <= i <= |clients|
      invariant devices == WifireClients(clients[..i])
    {
      assert clients[..i + 1][..i] == clients[..i];
      assert clients[..i + 1][i] == clients[i];
      if IsWifire(clients[i]) {
        devices := devices + [WifireDevice(clients[i])];
      }
      i := i + 1;
    }
    assert clients[..i] == clients;
  }

  /**
   * The marked positions in the order given: the positions of `order` that the map maps to
   * true. Over an order that lists every key once, it lists every marked position once.
   */
  function MarkedIn(order: seq<int>, checked: map<int, bool>): (ps: seq<int>)
    ensures forall p :: p in ps <==> p in order && p in checked && checked[p]
    ensures (forall k, l :: 0 <= k < l < |order| ==> order[k] != order[l]) ==>
      forall k, l :: 0 <= k < l < |ps| ==> ps[k] != ps[l]
    decreases |order|
  {
    if |order| == 0 then []
    else
      var last := order[|order| - 1];
      var init := MarkedIn(order[..|order| - 1], checked);
      assert order == order[..|order| - 1] + [last];
      if last in checked && checked[last] then init + [last] else init
  }

  /** The current device the interactive screens act on. */
  class DeviceHelper {
    var device: Option<WifireDevice>

    constructor ()
      ensures device.None?
    {
      device := None;
    }

    method SetDevice(d: WifireDevice)
      modifies this
      ensures device == Some(d)
    {
      device := Some(d);
    }
  }

  /**
   * The list adapter: the device list it shows (shared with the screen) and the
   * position-to-mark map of the contextual selection.
   */
  class ConnectedDevicesAdapter {
    const dataList: array<WifireDevice>
    var contextualChecked: map<int, bool>

    constructor (connectedDevices: array<WifireDevice>)
      ensures dataList == connectedDevices && contextualChecked == map[]
    {
      dataList := connectedDevices;
      contextualChecked := map[];
    }

    /** `isContextualChecked`: a position never toggled reads as unchecked. */
    predicate IsContextualChecked(position: int)
      reads this
    {
      position in contextualChecked && contextualChecked[position]
    }

    /** The positions marked in the contextual selection. */
    function MarkedPositions(): (ps: set<int>)
      reads this
      ensures forall p :: p in ps <==> IsContextualChecked(p)
    {
      set p | p in contextualChecked && contextualChecked[p]
    }

    /** `switchContextualChecked`: flip one position's mark; every other position keeps its own. */
    method SwitchContextualChecked(position: int)
      modifies this`contextualChecked
      ensures contextualChecked == old(contextualChecked)[position := !old(IsContextualChecked(position))]
      ensures IsContextualChecked(position) <==> !old(IsContextualChecked(position))
      ensures forall q :: q != position ==> (IsContextualChecked(q) <==> old(IsContextualChecked(q)))
    {
      if IsContextualChecked(position) {
        contextualChecked := contextualChecked[position := false];
      } else {
        contextualChecked := contextualChecked[position := true];
      }
    }

    /** `clearContextualSelected`: no position is marked afterwards. */
    method ClearContextualSelected()
      modifies this`contextualChecked
      ensures contextualChecked == map[]
      ensures forall p :: !IsContextualChecked(p)
    {
      contextualChecked := map[];
    }

    /**
     * `getContextualSelectedDevices`: the device at each marked position, in the order the
     * map's entries are visited (`entryOrder`, each key once, which the hash map decides).
     * A marked position outside the list throws, which is `None`.
     */
    method GetContextualSelectedDevices(entryOrder: seq<int>) returns (r: Option<seq<WifireDevice>>)
      requires forall p :: p in entryOrder <==> p in contextualChecked
      requires forall k, l :: 0 <= k < l < |entryOrder| ==> entryOrder[k] != entryOrder[l]
      ensures r.None? <==> exists p :: p in MarkedPositions() && !(0 <= p < dataList.Length)
      ensures r.Some? ==> |r.value| == |MarkedIn(entryOrder, contextualChecked)|
      ensures r.Some? ==> forall k :: 0 <= k < |r.value| ==>
        0 <= MarkedIn(entryOrder, contextualChecked)[k] < dataList.Length
        && r.value[k] == dataList[MarkedIn(entryOrder, contextualChecked)[k]]
    {
      var selected: seq<WifireDevice> := [];
      ghost var marked: seq<int> := [];
      var i := 0;
      while i < |entryOrder|
        invariant 0 <= i <= |entryOrder|
        invariant marked == MarkedIn(entryOrder[..i], contextualChecked)
        invariant |selected| == |marked|
        invariant forall k :: 0 <= k < |selected| ==> 0 <= marked[k] < dataList.Length && selected[k] == dataList[marked[k]]
      {
        assert entryOrder[..i + 1][..i] == entryOrder[..i];
        var p := entryOrder[i];
        if contextualChecked[p] {
          if !(0 <= p < dataList.Length) {
            assert p in MarkedPositions();
            return None;
          }
          selected := selected + [dataList[p]];
          marked := marked + [p];
        }
        i := i + 1;
      }
      assert entryOrder[..i] == entryOrder;
      assert forall p :: p in MarkedPositions() ==> p in marked;
      r := Some(selected);
    }

    /**
     * `isItemChecked`: in single-choice mode the list's checked row, whatever the marks say;
     * otherwise a row is checked exactly when its position is among the marked ones.
     */
    predicate IsItemChecked(position: int, singleChoice: bool, checkedItemPosition: int)
      reads this
    {
      if singleChoice then checkedItemPosition == position else IsContextualChecked(position)
    }

    /**
     * The rows `fillViewHolder` draws as checked: in single-choice mode at most
     * one, the list's checked row when it is in the list; in contextual mode every marked
     * row of the list, however many.
     */
    function HighlightedRows(singleChoice: bool, checkedItemPosition: int): (rows: set<int>)
      reads this
      ensures forall p :: p in rows ==> 0 <= p < dataList.Length
      ensures singleChoice ==> rows <= {checkedItemPosition}
      ensures singleChoice && 0 <= checkedItemPosition < dataList.Length ==> rows == {checkedItemPosition}
      ensures !singleChoice ==> forall p :: 0 <= p < dataList.Length ==> (p in rows <==> p in MarkedPositions())
    {
      set p | 0 <= p < dataList.Length && IsItemChecked(p, singleChoice, checkedItemPosition)
    }

    /** `sort(COMPARATOR)`: the shared list, sorted in place by device name. */
    method Sort()
      modifies dataList
      ensures SortedBy(dataList[..], DeviceKey)
      ensures multiset(dataList[..]) == multiset(old(dataList[..]))
    {
      SortBy(dataList, DeviceKey);
    }
  }

  /** The list screen. `checkedPosition` is the list view's checked row, -1 for none. */
  class ConnectedDevicesScreen {
    const activity: Main.CreatorActivity
    const helper: DeviceHelper
    var devices: array<WifireDevice>
    var adapter: ConnectedDevicesAdapter
    var checkedPosition: int
    var interactEnabled: bool

    constructor (activity: Main.CreatorActivity, helper: DeviceHelper)
      ensures this.activity == activity && this.helper == helper
      ensures devices.Length == 0 && checkedPosition == -1 && !interactEnabled
    {
      this.activity := activity;
      this.helper := helper;
      var empty := new WifireDevice[0];
      devices := empty;
      adapter := new ConnectedDevicesAdapter(empty);
      checkedPosition := -1;
      interactEnabled := false;
    }

    /**
     * `onSuccess` and `afterGetDevices`: the field becomes a new list of the boards among
     * the clients. With none, an attached screen asks for the no-devices screen and the
     * initial menu, and the list view keeps its previous adapter (over the previous list).
     * Otherwise `restartDeviceList` sorts the list through a fresh adapter sharing it and
     * selects row 0.
     */
    method OnClientsReceived(clients: seq<DS.Client>, attached: bool) returns (replacedWith: Option<string>)
      modifies this`devices, this`adapter, this`checkedPosition, this`interactEnabled, activity.drawer
      ensures fresh(devices)
      ensures devices.Length == 0 ==> adapter == old(adapter)
      ensures devices.Length > 0 ==> fresh(adapter) && adapter.dataList == devices
      ensures multiset(devices[..]) == multiset(WifireClients(clients))
      ensures SortedBy(devices[..], DeviceKey)
      ensures devices.Length == 0 ==>
        (checkedPosition == old(checkedPosition) && interactEnabled == old(interactEnabled)
         && (attached ==> replacedWith == Some(FF.NO_CONNECTED_DEVICES_TAG)
                          && activity.drawer.mode == Nav.Initial && activity.drawer.items == Nav.ItemsFor(Nav.Initial))
         && (!attached ==> replacedWith.None? && activity.drawer.mode == old(activity.drawer.mode)
                           && activity.drawer.items == old(activity.drawer.items)))
      ensures devices.Length > 0 ==>
        (checkedPosition == 0 && interactEnabled && replacedWith.None?
         && activity.drawer.mode == old(activity.drawer.mode) && activity.drawer.items == old(activity.drawer.items))
      ensures activity.drawer.checkedItem == old(activity.drawer.checkedItem)
    {
      var list := FilterDevices(clients);
      devices := new WifireDevice[|list|](k requires 0 <= k < |list| => list[k]);
      assert devices[..] == list;
      replacedWith := None;
      if devices.Length == 0 {
        if attached {
          replacedWith := Some(FF.NO_CONNECTED_DEVICES_TAG);
          activity.SetUIMode(Nav.Initial);
        }
        assert devices[..] == list;
      } else {
        adapter := new ConnectedDevicesAdapter(devices);
        adapter.Sort();
        assert multiset(devices[..]) == multiset(list);
        checkedPosition := 0;
        interactEnabled := true;
      }
    }

    /**
     * `getDevices`: one page of clients from index 0 of size 100 through the runner; a
     * failure only stops the progress indicator.
     */
    method GetDevices(deviceServerUrl: string, apiResp: DS.Response<DS.Api>,
                      clientsResp: DS.Response<seq<DS.Client>>, attached: bool)
      returns (outcome: Result<seq<DS.Client>, DS.DsError>, sent: seq<DS.Request>, replacedWith: Option<string>)
      modifies this`devices, this`adapter, this`checkedPosition, this`interactEnabled, activity.drawer
      ensures |sent| >= 1 && sent[0] == DS.GetRequest(deviceServerUrl, true)
      ensures DS.Execute(apiResp).Ok? && "clients" in DS.Execute(apiResp).value.links ==>
        sent == [DS.GetRequest(deviceServerUrl, true),
                 DS.GetRequest(DS.Execute(apiResp).value.links["clients"] + "?startIndex=" + IntToString(START_INDEX)
                               + "&pageSize=" + IntToString(PAGE_SIZE) + "&", true)]
        && outcome == DS.Execute(clientsResp)
      ensures DS.Execute(apiResp).Err? ==> outcome == Err(DS.Execute(apiResp).error) && |sent| == 1
      ensures DS.Execute(apiResp).Ok? && "clients" !in DS.Execute(apiResp).value.links ==>
        outcome == Err(DS.Unknown) && |sent| == 1
      ensures outcome.Ok? ==> multiset(devices[..]) == multiset(WifireClients(outcome.value))
                              && SortedBy(devices[..], DeviceKey)
      ensures outcome.Err? ==> devices == old(devices) && adapter == old(adapter) && replacedWith.None?
                               && checkedPosition == old(checkedPosition) && interactEnabled == old(interactEnabled)
                               && activity.drawer.mode == old(activity.drawer.mode)
                               && activity.drawer.items == old(activity.drawer.items)
      ensures activity.drawer.checkedItem == old(activity.drawer.checkedItem)
    {
      var r;
      r, sent := DS.ClientsInternal(deviceServerUrl, START_INDEX, PAGE_SIZE, apiResp, clientsResp);
      outcome := DS.RunnerCall(r);
      replacedWith := None;
      if outcome.Ok? {
        replacedWith := OnClientsReceived(outcome.value, attached);
      }
    }

    /** A row click selects that row (the contextual mode is never entered) and enables the button. */
    method OnItemClick(position: int)
      modifies this`checkedPosition, this`interactEnabled
      ensures checkedPosition == position && interactEnabled
    {
      interactEnabled := true;
      checkedPosition := position;
    }

    /**
     * The interact button: record that interactive mode has started, make the checked row
     * the current device and switch to the interactive menu, then open the commands screen
     * with Commands checked. An invalid checked row throws after the preference is written.
     */
    method Interact(prefs: Settings.Preferences, attached: bool) returns (replacedWith: Option<string>, thrown: bool)
      modifies prefs, helper, activity.drawer, activity`actionBarTitle
      ensures !attached ==> replacedWith.None? && !thrown && prefs.store == old(prefs.store)
                            && helper.device == old(helper.device)
                            && activity.drawer.mode == old(activity.drawer.mode)
                            && activity.drawer.checkedItem == old(activity.drawer.checkedItem)
      ensures attached ==> prefs.store == old(prefs.store)[Settings.INTERACTIVE_MODE_HAS_STARTED_AT_LEAST_ONCE := Settings.Flag(true)]
      ensures thrown <==> attached && !(0 <= checkedPosition < devices.Length)
      ensures attached && !thrown ==>
        helper.device == Some(devices[checkedPosition])
        && activity.drawer.mode == Nav.Interactive && activity.drawer.items == Nav.ItemsFor(Nav.Interactive)
        && replacedWith == Some(FF.INTERACTIVE_TAG)
        && activity.drawer.checkedItem == Nav.Commands && activity.actionBarTitle == "commands"
      ensures thrown ==> replacedWith.None? && helper.device == old(helper.device)
                         && activity.drawer.mode == old(activity.drawer.mode)
    {
      replacedWith := None;
      thrown := false;
      if attached {
        prefs.InteractiveModeHasStartedAtLeastOnce();
        if !(0 <= checkedPosition < devices.Length) {
          thrown := true;
          return;
        }
        helper.SetDevice(devices[checkedPosition]);
        activity.SetUIMode(Nav.Interactive);
        replacedWith := Some(FF.INTERACTIVE_TAG);
        activity.OnSelectionAndTitleChange(Nav.Commands);
      }
    }
  }
}
