# WiFire companion app: a verified model of its rules

The WiFire companion app is an Android app that signs a user in to the Creator Device
Server, sets up a WiFire board (joining the board's soft-AP network, sending it the WiFi
and Device Server configuration, then waiting for it to register), lists the user's
boards and drives a board's LEDs and sensors from a dashboard. Most of the app is UI.
This project models the rules inside it that can be stated precisely, each in the form
its code takes:

- **DeviceServer** (`ds_service.dfy`) is the Device Server client. It covers:
  - how a response becomes a value or a typed error;
  - how a request's URL and body are built;
  - the first-match lookups of a client by name and of an object type by numeric ID;
  - the OAuth token lifecycle, kept in the settings store: the password grant (section 4.3
    of RFC 6749), the refresh grant (section 6 of RFC 6749) and Bearer headers (section 2.1
    of RFC 6750).

  The network is a parameter. Each request an operation issues is answered by a `Response`
  value, either a status with a decoded body or an I/O failure. Each operation returns the
  requests it sent, in order.
- **Settings** (`preferences.dfy`) is the key-value settings store, read with typed defaults.
- **WifiUtil** (`wifi_util.dfy`) covers board detection by BSSID prefix, the scan receiver,
  SSID quoting, and the bookkeeping of saved networks over an abstract view of the phone's
  WiFi service.
- **Connecting** (`connecting.dfy`) is the provisioning state machine. Its events are
  connectivity changes, a 3-minute timeout and a 5-second poll bounded by a 60-second
  window. It is given as a transition function `Next`, and as a class whose event methods
  are proved to follow it.
- **Dashboard** (`dashboard.dfy`) covers the dashboard: the checks on the four IPSO
  collections (3311, 3200, 3303, 3202), the copy into fixed-size state arrays, the LED
  toggle and the failure notices.
- The setup wizard's screens:
  - **LogInToWifi** (`log_in_to_wifi.dfy`): form validation, the network configuration
    sent to the board, and the three-call provisioning chain;
  - **LoginToDevice** (`login_to_device.dfy`): the hexadecimal WEP-key check, the
    scan-twice rule, and the connection timeout;
  - **NetworkChoice** (`network_choice.dfy`): the in-place sorted network list and the
    item click;
  - **SetupGuide** (`setup_guide_info.dfy`): the six-field wizard context.
- Sign-in and sign-up:
  - **SignUp** (`sign_up.dfy`);
  - **LogInOrSignUp** (`login_or_sign_up.dfy`): the one-shot autologin, the login failure
    messages and the OpenID Connect authorization URL;
  - **LoginActivity** (`login_activity.dfy`): extraction of the ID token from the redirect.
- Navigation:
  - **Navigation** (`navigation.dfy`): the drawer's menus per mode, the checked item,
    item-to-screen routing and logout;
  - **FragmentFactory** (`fragment_factory.dfy`): tag-to-screen dispatch with its fallback;
  - **MainActivity** (`creator_activity.dfy`): the double-tap back rule and the mode chosen
    on resume.
- The device list:
  - **ConnectedDevices** (`connected_devices.dfy`): the name filter, the sorted list with
    row 0 selected, the adapter's contextual marks and the interact button;
  - **Wifire** (`wifire_device.dfy`): a board's order, equality and hash, all by name.
- **GifView** (`gif_web_view.dfy`) splits a GIF path into a base folder and a file name.
- **Payloads** (`payloads.dfy`) holds the two soft-AP payload records.
- Shared modules:
  - **Sorting** (`sorting.dfy`) is the in-place insertion sort behind `Collections.sort`
    and the adapter's sort, proved sorted and a permutation.
  - **JavaLang** (`java_lang.dfy`) states the `java.lang` behaviour the code depends on:
    `split` dropping trailing empty pieces, `lastIndexOf`, `compareTo` and `hashCode` over
    UTF-16 code units (the hash with 32-bit wrap-around), `Integer.toString`,
    `Long.parseLong(s, 16)` with its 64-bit range, and `replace`.
  - **Wrappers** (`wrappers.dfy`) holds `Option` and `Result`.
  - **Constants** (`constants.dfy`) holds the app's literal values.

**Modelling conventions**
- Code that changes fields becomes classes with `modifies` clauses:
  - the screens;
  - the settings store;
  - the WiFi service view;
  - the adapter;
  - the wizard context;
  - the drawer.
- Loops become methods with invariants. The in-place sorts work on arrays.
- Timers are due times (`Option<int>`) with an explicit `now` parameter.
- Asynchronous answers, the clock, the random nonce and the e-mail regex are parameters.

Some behaviours of the code that a reader might not expect, all modelled as written:
- The interceptor refreshes the access token only once the token is at least ten seconds
  past its expiry (`app/src/main/java/com/imgtec/hobbyist/ds/DSService.java:660`).
- The Device Server poll reschedules itself while inside its window, whether or not it
  found the board
  (`app/src/main/java/com/imgtec/creator/iup/fragments/menu/setupguide/ConnectingFragment.java:289-306`).
- The two intermediate states `WIFI_CONNECTED_MOCK` and `DS_CONNECTING_MOCK` are stand-ins,
  as the app's own comment on them says, and no transition enters `DS_CONNECTING_MOCK`
  (`app/src/main/java/com/imgtec/creator/iup/fragments/menu/setupguide/ConnectingFragment.java:105-116`).
- The dashboard accepts four or more light controls: it rejects only fewer than four
  (`app/src/main/java/com/imgtec/creator/iup/fragments/menu/InteractiveFragment.java:178`).
- The wizard context has setters but no reset, so its fields keep their values from one run
  of the wizard to the next
  (`app/src/main/java/com/imgtec/creator/iup/utils/SetupGuideInfoSingleton.java:38-98`).

## Model

| member | source | states |
|---|---|---|
| DeviceServer.ErrorForStatusInverse | app/src/main/java/com/imgtec/hobbyist/ds/DSService.java:528-537 | 401, 404 and 409 map to Unauthorized, NotFound and Conflict and back; every other status maps to Unknown |
| DeviceServer.ErrorForStatus | app/src/main/java/com/imgtec/hobbyist/ds/DSService.java:528-537 | a failing status is never a network or parse error, and is Unknown exactly when it is not 401, 404 or 409 |
| DeviceServer.NeedsRefreshGrace | app/src/main/java/com/imgtec/hobbyist/ds/DSService.java:660 | the token is refreshed once now reaches ten seconds past the expiry, stays due as time passes, and a later expiry is never refreshed sooner |
| DeviceServer.Execute | app/src/main/java/com/imgtec/hobbyist/ds/DSService.java:512-542 | a response is a value exactly when its status is 2xx and its body decodes; a 2xx body that does not decode is Parse; another status gives its status error; an I/O failure is Network |
| DeviceServer.RunnerCall | app/src/main/java/com/imgtec/hobbyist/ds/DSService.java:602-610 | a Device Server error passes through unchanged, any other failure becomes Unknown, and a value is kept |
| DeviceServer.QueryStringConcat | app/src/main/java/com/imgtec/hobbyist/ds/DSService.java:476-481 | the query text of two entry lists is the concatenation of their texts |
| DeviceServer.QueryStringOfTwo | app/src/main/java/com/imgtec/hobbyist/ds/DSService.java:476-481 | two entries give `k1=v1&k2=v2&`, trailing '&' included |
| DeviceServer.PageQueryUrl | app/src/main/java/com/imgtec/hobbyist/ds/DSService.java:556-566 | a paged listing URL is `href?startIndex=S&pageSize=P&` |
| DeviceServer.BuildRequest | app/src/main/java/com/imgtec/hobbyist/ds/DSService.java:474-501 | URL with `?` and one `key=value&` per query entry in order; form parameters win over a JSON body; the tag is the authorization flag |
| DeviceServer.WithoutHeader | app/src/main/java/com/imgtec/hobbyist/ds/DSService.java:656-670 | the header list loses exactly the headers with that name, and keeps every other one |
| DeviceServer.SetHeaderSingle | app/src/main/java/com/imgtec/hobbyist/ds/DSService.java:663-667 | after `header(name, value)` exactly one `name` header remains, with that value; URL and body are unchanged |
| DeviceServer.FirstClientNamed | app/src/main/java/com/imgtec/hobbyist/ds/DSService.java:547-551 | the position found holds the name and no earlier client has it; none is found only when no client has it |
| DeviceServer.FirstObjectTypeWithId | app/src/main/java/com/imgtec/hobbyist/ds/DSService.java:440-445 | the position found holds the ID string and no earlier object type has it; none is found only when no type has it |
| DeviceServer.FindClient | app/src/main/java/com/imgtec/hobbyist/ds/DSService.java:545-553 | the search loop returns the first client with the name, else NotFound |
| DeviceServer.FindObjectType | app/src/main/java/com/imgtec/hobbyist/ds/DSService.java:437-454 | the search loop returns the first object type whose ID is `Integer.toString(objectId)`, else NotFound |
| DeviceServer.FoundObjectTypeIsRequested | app/src/main/java/com/imgtec/hobbyist/ds/DSService.java:442 | a found type's ID is the text of the requested number and of no other number |
| DeviceServer.ClientsInternal | app/src/main/java/com/imgtec/hobbyist/ds/DSService.java:556-566 | first the API root, then the `clients` link with startIndex and pageSize; errors pass through, and a missing link is a non-Device-Server failure |
| DeviceServer.GetClientInternal | app/src/main/java/com/imgtec/hobbyist/ds/DSService.java:545-553 | the API root first: its failure is passed on, and a missing clients link is OtherFailure, each after that one request; then one page of 1000 from index 0, whose failure is passed on; the result is the first listed client with the name, and NotFound when none has it |
| DeviceServer.GetInstancesInternal | app/src/main/java/com/imgtec/hobbyist/ds/DSService.java:437-454 | no `objecttypes` link fails before any request; object types are fetched with pageSize 1000 and their failure passes through; no matching ID gives NotFound and a type without an `instances` link fails, each after one request; otherwise the second request is the `instances` link of the first matching type and its answer is the result |
| DeviceServer.UpdateInstanceInternal | app/src/main/java/com/imgtec/hobbyist/ds/DSService.java:456-472 | the same outcomes as the instance read up to the matching type, then a PUT of the JSON to instances-href + "/" + instanceId whose answer is the result; success needs both requests |
| DeviceServer.RefreshTokenRequests | app/src/main/java/com/imgtec/hobbyist/ds/DSService.java:568-578 | the API root (unauthorized), then the refresh grant with the stored refresh token; a failed root request is passed on and a missing authenticate link is OtherFailure, each after that one request; otherwise the result is the grant's answer |
| DeviceServer.DsClient.ClearAccessToken | app/src/main/java/com/imgtec/hobbyist/ds/DSService.java:586-590 | access token "", expiry 0 and refresh token ""; the other keys are unchanged |
| DeviceServer.DsClient.SaveAccessToken | app/src/main/java/com/imgtec/hobbyist/ds/DSService.java:580-584 | stores both tokens and the expiry now + 1000 * expiresIn; the other keys are unchanged |
| DeviceServer.DsClient.LoginWithIdToken | app/src/main/java/com/imgtec/hobbyist/ds/DSService.java:341-371 | the tokens are cleared first; the identity-provider exchange, then the password grant with its key and secret; a null identity answer is Unauthorized; success stores the new tokens and the user's name, and sets autologin only with remember-me; failure leaves the tokens cleared; a failed API-root or grant request passes its error on, and a missing authenticate link is Unknown |
| DeviceServer.DsClient.LoginWithRefreshToken | app/src/main/java/com/imgtec/hobbyist/ds/DSService.java:373-388 | the refresh grant with the refresh token stored before the call; success stores the new tokens; failure leaves them cleared; user name and autologin are kept; the API root is asked first; a failed root or grant request passes its error on, and a missing authenticate link is Unknown |
| DeviceServer.DsClient.Intercept | app/src/main/java/com/imgtec/hobbyist/ds/DSService.java:656-670 | an untagged request passes unchanged; a tagged one is refreshed first when the expiry is at least ten seconds past, then gets "Bearer " + the stored token; a failed refresh passes on the API-root or grant error, or OtherFailure for a missing authenticate link |
| DeviceServer.DsClient.Authenticate | app/src/main/java/com/imgtec/hobbyist/ds/DSService.java:627-641 | a URL containing "oauth" gives up (null) with no request; otherwise refresh, store, and retry with an added Bearer header; a failed refresh passes on the API-root or grant error, or OtherFailure for a missing authenticate link |
| Settings.WithTokensReadBack | app/src/main/java/com/imgtec/hobbyist/utils/Preferences.java:98-127 | writing the three token keys makes their getters return the values written; every other key keeps its value |
| Settings.WithTokensOverwrites | app/src/main/java/com/imgtec/hobbyist/utils/Preferences.java:98-123 | a second token write hides the first completely |
| Settings.Preferences.constructor | app/src/main/java/com/imgtec/hobbyist/utils/Preferences.java:64-66 | a fresh store: user name "", tokens "", expiry 0, autologin false |
| Settings.Preferences.InteractiveModeHasStartedAtLeastOnce | app/src/main/java/com/imgtec/hobbyist/utils/Preferences.java:73-77 | stores true under its key and changes no other key |
| Settings.Preferences.SaveEmailCredential | app/src/main/java/com/imgtec/hobbyist/utils/Preferences.java:82-86 | stores the e-mail under EMAIL_CREDENTIAL only |
| Settings.Preferences.SaveUserName | app/src/main/java/com/imgtec/hobbyist/utils/Preferences.java:88-96 | writes one key; the getter returns the name |
| Settings.Preferences.SetAccessToken | app/src/main/java/com/imgtec/hobbyist/utils/Preferences.java:98-106 | writes one key; the getter returns the token |
| Settings.Preferences.SetRefreshToken | app/src/main/java/com/imgtec/hobbyist/utils/Preferences.java:108-116 | writes one key; the getter returns the token |
| Settings.Preferences.SetAccessTokenExpiry | app/src/main/java/com/imgtec/hobbyist/utils/Preferences.java:119-127 | writes one key; the getter returns the time |
| Settings.Preferences.SetAutologin | app/src/main/java/com/imgtec/hobbyist/utils/Preferences.java:129-137 | writes one key; the getter returns the flag |
| WifiUtil.FirstWithSsid | app/src/main/java/com/imgtec/creator/iup/utils/WifiUtil.java:130-138 | the saved network found has exactly that stored SSID and none before it does; none is found only when no saved SSID matches |
| WifiUtil.FirstWithSsidIgnoresKeys | app/src/main/java/com/imgtec/creator/iup/utils/WifiUtil.java:130-138 | changing a saved network's key does not change what a lookup finds |
| WifiUtil.AllSsids | app/src/main/java/com/imgtec/creator/iup/utils/WifiUtil.java:315-330 | without the board filter, every SSID of the scan, in order |
| WifiUtil.KnownBssidPrefix | app/src/main/java/com/imgtec/creator/iup/utils/WifiUtil.java:317-322 | the filter reaches exactly the leading results that have a BSSID |
| WifiUtil.Collected | app/src/main/java/com/imgtec/creator/iup/utils/WifiUtil.java:311-340 | all SSIDs in order without the filter; with it, the filter throws exactly when some result has no BSSID; never more SSIDs than results |
| WifiUtil.BoardSsidsMembership | app/src/main/java/com/imgtec/creator/iup/utils/WifiUtil.java:315-330 | when every result has a BSSID, an SSID is listed as a board exactly when some result with the lower-cased prefix "00:1e:c0" carries it |
| WifiUtil.BoardSsidsLength | app/src/main/java/com/imgtec/creator/iup/utils/WifiUtil.java:315-330 | the board list is never longer than the scan |
| WifiUtil.CollectSsids | app/src/main/java/com/imgtec/creator/iup/utils/WifiUtil.java:315-330 | the receiver's loop computes exactly the collected list and whether it threw |
| WifiUtil.WifiScanReceiver.OnReceive | app/src/main/java/com/imgtec/creator/iup/utils/WifiUtil.java:311-340 | the listener gets the collected list even when filtering throws, then the receiver unregisters; a later receipt calls no listener |
| WifiUtil.WifiUtil.CurrentWifiSsid | app/src/main/java/com/imgtec/creator/iup/utils/WifiUtil.java:81-84 | null stays null; otherwise no double quote is left |
| WifiUtil.WifiUtil.ConfiguredNetworkId | app/src/main/java/com/imgtec/creator/iup/utils/WifiUtil.java:140-146 | -1 exactly when no network is saved as `"ssid"`, else the first such network's id |
| WifiUtil.WifiUtil.ConnectToWepNetwork | app/src/main/java/com/imgtec/creator/iup/utils/WifiUtil.java:94-122 | records the current network id as the original first and turns WiFi on; a saved network gets the new key (false if the update is refused); otherwise a new quoted WEP network with priority 40 is added when the service assigns it an id; the result is the enable answer |
| WifiUtil.WifiUtil.EnableChosenNetwork | app/src/main/java/com/imgtec/creator/iup/utils/WifiUtil.java:253-260 | enables the first saved network whose stored SSID equals the argument verbatim; false when none does |
| WifiUtil.WifiUtil.SetOriginalNetworkId | app/src/main/java/com/imgtec/creator/iup/utils/WifiUtil.java:279-283 | records the id |
| WifiUtil.SavedNetworkFoundByPlainSsid | app/src/main/java/com/imgtec/creator/iup/utils/WifiUtil.java:140-160 | a network the app saves is found again by its plain SSID, at the end of the list |
| WifiUtil.FirstWithSsidOfAppend | app/src/main/java/com/imgtec/creator/iup/utils/WifiUtil.java:130-138 | an appended network is found when no earlier one matches |
| WifiUtil.CurrentSsidUnquotes | app/src/main/java/com/imgtec/creator/iup/utils/WifiUtil.java:81-84 | the quoted SSID Android reports reads back as the plain SSID |
| WifiUtil.BoardMatchIsCaseSensitiveOnlyWhenConnected | app/src/main/java/com/imgtec/creator/iup/utils/WifiUtil.java:223-231 | every connected BSSID whose lower-cased form starts with the board prefix but which does not start with it itself passes the scan filter yet is not a connected board |
| WifiUtil.UpperCaseBoardBssid | app/src/main/java/com/imgtec/creator/iup/utils/WifiUtil.java:227 | "00:1E:C0:00:00:01" is such a BSSID |
| WifiUtil.WifiUtil.IsBoardConnected | app/src/main/java/com/imgtec/creator/iup/utils/WifiUtil.java:223-231 | a connected board has WiFi up and a BSSID that also passes the case-insensitive scan filter |
| WifiUtil.WifiUtil.ConnectionStates | app/src/main/java/com/imgtec/creator/iup/utils/WifiUtil.java:223-245 | with WiFi up exactly one of "board" and "WiFi but not the board" holds; without WiFi neither; the board never counts as an Internet connection that is not the board |
| Connecting.ConnectingScreen.constructor | app/src/main/java/com/imgtec/creator/iup/fragments/menu/setupguide/ConnectingFragment.java:104 | the screen starts in WIFI_CONNECTING with nothing pending |
| Connecting.ConnectingScreen.OnViewCreated | app/src/main/java/com/imgtec/creator/iup/fragments/menu/setupguide/ConnectingFragment.java:130-135 | the state is reset to WIFI_CONNECTING |
| Connecting.ConnectingScreen.OnResume | app/src/main/java/com/imgtec/creator/iup/fragments/menu/setupguide/ConnectingFragment.java:210-236 | enables the saved network whose SSID is the user's choice quoted ("null" when none was chosen) and returns that SSID and the enable answer; registers the receiver and arms the 3-minute timeout; the WiFi state is unchanged |
| Connecting.ConnectingScreen.OnPause | app/src/main/java/com/imgtec/creator/iup/fragments/menu/setupguide/ConnectingFragment.java:238-244 | cancels the timeout and the poll and unregisters the receiver |
| Connecting.ConnectingScreen.OnConnectivityChange | app/src/main/java/com/imgtec/creator/iup/fragments/menu/setupguide/ConnectingFragment.java:256-282 | only in WIFI_CONNECTING with internet but not the board: unregister, WIFI_CONNECTED_MOCK, and the first poll 5 s later within a 60 s window |
| Connecting.ConnectingScreen.OnTimeout | app/src/main/java/com/imgtec/creator/iup/fragments/menu/setupguide/ConnectingFragment.java:220-229 | TAKING_LONG unless the state is DS_CONNECTING_MOCK or DS_CONNECTED |
| Connecting.ConnectingScreen.OnPoll | app/src/main/java/com/imgtec/creator/iup/fragments/menu/setupguide/ConnectingFragment.java:284-316 | a client named exactly the board SSID sets DS_CONNECTED; the next poll is 5 s later while inside the window; a failed request ends polling |
| Connecting.ConnectingScreen.OnCancelClicked | app/src/main/java/com/imgtec/creator/iup/fragments/menu/setupguide/ConnectingFragment.java:145-153 | unregisters the receiver |
| Connecting.ConnectingScreen.OnTryAgainClicked | app/src/main/java/com/imgtec/creator/iup/fragments/menu/setupguide/ConnectingFragment.java:154-163 | unregisters the receiver |
| Connecting.ConnectingScreen.OnDoneClicked | app/src/main/java/com/imgtec/creator/iup/fragments/menu/setupguide/ConnectingFragment.java:164-173 | unregisters the receiver |
| Connecting.NeverConnectingMock | app/src/main/java/com/imgtec/creator/iup/fragments/menu/setupguide/ConnectingFragment.java:114-116 | no run of events ever enters DS_CONNECTING_MOCK |
| Connecting.ConnectedIsFinal | app/src/main/java/com/imgtec/creator/iup/fragments/menu/setupguide/ConnectingFragment.java:289-306 | once DS_CONNECTED, only a new view leaves it |
| Connecting.TakingLongOnlyByTimeout | app/src/main/java/com/imgtec/creator/iup/fragments/menu/setupguide/ConnectingFragment.java:220-229 | only an armed timeout enters TAKING_LONG, and only from WIFI_CONNECTING or WIFI_CONNECTED_MOCK |
| Connecting.Next | app/src/main/java/com/imgtec/creator/iup/fragments/menu/setupguide/ConnectingFragment.java:130-316 | only view creation, connectivity, the timeout and a poll move the state; DS_CONNECTING_MOCK is never entered; DS_CONNECTED is entered only by a pending poll whose answer names the board; TAKING_LONG only by an armed timeout |
| Connecting.Run | app/src/main/java/com/imgtec/creator/iup/fragments/menu/setupguide/ConnectingFragment.java:130-316 | a run without state-moving events keeps the state, and a run that ends connected from elsewhere contains a poll that found the board |
| Connecting.PollShrinksBudget | app/src/main/java/com/imgtec/creator/iup/fragments/menu/setupguide/ConnectingFragment.java:279-306 | each poll at its due time strictly lowers the number of polls left |
| Connecting.PollingEnds | app/src/main/java/com/imgtec/creator/iup/fragments/menu/setupguide/ConnectingFragment.java:279-313 | after as many polls as the budget allows, no poll is pending |
| Connecting.ConnectivityAllowsTwelvePolls | app/src/main/java/com/imgtec/creator/iup/fragments/menu/setupguide/ConnectingFragment.java:247-282 | starting the polls allows exactly twelve |
| Connecting.RescheduleIgnoresMatch | app/src/main/java/com/imgtec/creator/iup/fragments/menu/setupguide/ConnectingFragment.java:289-306 | rescheduling does not depend on whether the board was found, and a match connects |
| Dashboard.Refresh | app/src/main/java/com/imgtec/creator/iup/fragments/menu/InteractiveFragment.java:164-217 | success exactly when every call succeeds and there are enough items (4 lights, 2 inputs, 1 temperature, 1 analog), reading the first ones; a failed client lookup gives its error; too few items is Parse |
| Dashboard.RefreshFailureNotice | app/src/main/java/com/imgtec/creator/iup/fragments/menu/InteractiveFragment.java:270-289 | the offline dialog exactly for NotFound |
| Dashboard.LedFailureNotice | app/src/main/java/com/imgtec/creator/iup/fragments/menu/InteractiveFragment.java:339-354 | the offline dialog exactly for NotFound; otherwise the network or unknown toast |
| Dashboard.RefreshToastsAreDistinct | app/src/main/java/com/imgtec/creator/iup/fragments/menu/InteractiveFragment.java:270-289 | Unauthorized, Parse and Network each have their own toast, different from any other error's |
| Dashboard.InstanceId | app/src/main/java/com/imgtec/creator/iup/fragments/menu/InteractiveFragment.java:294-309 | each LED view is a Light Control instance below 4 |
| Dashboard.InstanceIdInjective | app/src/main/java/com/imgtec/creator/iup/fragments/menu/InteractiveFragment.java:294-309 | distinct LEDs control distinct instances |
| Dashboard.Toggled | app/src/main/java/com/imgtec/creator/iup/fragments/menu/InteractiveFragment.java:319-322 | only the clicked entry flips |
| Dashboard.ToggledTwice | app/src/main/java/com/imgtec/creator/iup/fragments/menu/InteractiveFragment.java:319-322 | flipping the same LED twice restores the states |
| Dashboard.DashboardScreen.constructor | app/src/main/java/com/imgtec/creator/iup/fragments/menu/InteractiveFragment.java:89-92 | four LEDs and two buttons off, temperature and analog 0 |
| Dashboard.DashboardScreen.OnResume | app/src/main/java/com/imgtec/creator/iup/fragments/menu/InteractiveFragment.java:135-138 | a refresh is due at once |
| Dashboard.DashboardScreen.OnPause | app/src/main/java/com/imgtec/creator/iup/fragments/menu/InteractiveFragment.java:141-145 | no refresh is pending |
| Dashboard.DashboardScreen.ShowReadings | app/src/main/java/com/imgtec/creator/iup/fragments/menu/InteractiveFragment.java:249-267 | the arrays hold the first 4 lights, the first 2 inputs, and the first temperature and analog value |
| Dashboard.DashboardScreen.RefreshRun | app/src/main/java/com/imgtec/creator/iup/fragments/menu/InteractiveFragment.java:164-217 | success shows the readings; every run schedules the next one 2000 ms later, and NotFound then removes it |
| Dashboard.DashboardScreen.OnLedClicked | app/src/main/java/com/imgtec/creator/iup/fragments/menu/InteractiveFragment.java:292-337 | once the client is found, sends the negated state for the LED's instance and flips only that LED; otherwise the failure notice, and NotFound also stops the refresh |
| Payloads.DhcpNetworkConfig | app/src/main/java/com/imgtec/creator/iup/retrofit/pojos/softap/NetworkConfig.java:60-70 | the 4-argument constructor keeps its arguments and leaves the four static fields null |
| Payloads.CertificateDeviceServer | app/src/main/java/com/imgtec/hobbyist/retrofit/pojos/softap/DeviceServer.java:56-63 | the 3-argument constructor keeps its arguments and leaves the keys and the chain null |
| LogInToWifi.Validate | app/src/main/java/com/imgtec/hobbyist/fragments/menu/setupguide/LogInToWifiFragment.java:250-282 | success exactly for an acceptable form; a password is required exactly when not OPEN; SSID only in manual mode; static fields only when manual and static; fails on "<unknown ssid>" ignoring case |
| LogInToWifi.NetworkConfigOf | app/src/main/java/com/imgtec/hobbyist/fragments/menu/setupguide/LogInToWifiFragment.java:306-327 | the SSID comes from the manual field exactly in manual mode; static addressing gives the 8-field record, else DHCP with null static fields |
| LogInToWifi.ValidManualConfigNamesNetwork | app/src/main/java/com/imgtec/hobbyist/fragments/menu/setupguide/LogInToWifiFragment.java:256-274 | a validated manual form sends a non-empty SSID, and non-empty static fields when static |
| LogInToWifi.OpenNetworkConnectNeedsPassword | app/src/main/java/com/imgtec/hobbyist/fragments/menu/setupguide/LogInToWifiFragment.java:411-414 | for any open network the password never changes validation, a password under 8 characters keeps the connect button off, and a shown network not of the length of "<unknown ssid>" validates with such a password |
| LogInToWifi.ValidatePassword | app/src/main/java/com/imgtec/hobbyist/fragments/menu/setupguide/LogInToWifiFragment.java:411-414 | a password that enables the connect button is never reported missing by validation |
| LogInToWifi.LogInToWifiScreen.constructor | app/src/main/java/com/imgtec/hobbyist/fragments/menu/setupguide/LogInToWifiFragment.java:127-129 | WPA2, shown network, DHCP |
| LogInToWifi.LogInToWifiScreen.OnSecurityProtocolChecked | app/src/main/java/com/imgtec/hobbyist/fragments/menu/setupguide/LogInToWifiFragment.java:198-216 | the checked protocol is kept |
| LogInToWifi.LogInToWifiScreen.OnManualConfigurationClicked | app/src/main/java/com/imgtec/hobbyist/fragments/menu/setupguide/LogInToWifiFragment.java:184-193 | manual mode is on |
| LogInToWifi.LogInToWifiScreen.OnAddressingChecked | app/src/main/java/com/imgtec/hobbyist/fragments/menu/setupguide/LogInToWifiFragment.java:218-235 | the addressing choice is kept |
| LogInToWifi.Provision | app/src/main/java/com/imgtec/hobbyist/fragments/menu/setupguide/LogInToWifiFragment.java:329-409 | configuration, then 1 s after its answer the PSK Device Server record, then 1 s later the reboot; each call goes out only once the earlier ones are answered and the screen is still attached, and a delayed call on a detached screen throws; the connecting screen exactly when all three are answered on an attached screen; the connectivity toast exactly for a failed first or second call on an attached screen; the failure toast exactly when the reboot fails in transport, attached or not |
| LogInToWifi.ProvisionSendsThreeCalls | app/src/main/java/com/imgtec/hobbyist/fragments/menu/setupguide/LogInToWifiFragment.java:329-400 | with the first two calls answered on an attached screen, the three calls go out in order and on time |
| LoginToDevice.ShortHexKeyAccepted | app/src/main/java/com/imgtec/hobbyist/fragments/menu/setupguide/LoginToDeviceFragment.java:282-290 | up to fifteen hex digits always parse; ten of them enable connect |
| LoginToDevice.LongKeyRejected | app/src/main/java/com/imgtec/hobbyist/fragments/menu/setupguide/LoginToDeviceFragment.java:282-290 | seventeen or more significant hex digits exceed a signed long, with or without a sign |
| LoginToDevice.SignedKeyEnablesConnect | app/src/main/java/com/imgtec/hobbyist/fragments/menu/setupguide/LoginToDeviceFragment.java:144-150 | a '+' or '-' followed by nine to fifteen hex digits enables connect though it is not a WEP key |
| LoginToDevice.IsHexadecimal | app/src/main/java/com/imgtec/hobbyist/fragments/menu/setupguide/LoginToDeviceFragment.java:282-290 | a text that parses is an optional sign followed by at least one hex digit |
| LoginToDevice.ConnectEnabled | app/src/main/java/com/imgtec/hobbyist/fragments/menu/setupguide/LoginToDeviceFragment.java:144-150 | an enabling key has at least ten characters, each after the first a hex digit |
| LoginToDevice.ScanStep | app/src/main/java/com/imgtec/hobbyist/fragments/menu/setupguide/LoginToDeviceFragment.java:167-178 | without the board the counter is kept and the not-available dialog follows; a started connection resets the counter to 0 |
| LoginToDevice.TwoScansStartConnection | app/src/main/java/com/imgtec/hobbyist/fragments/menu/setupguide/LoginToDeviceFragment.java:167-178 | from a fresh counter the first board scan rescans and the second starts the connection |
| LoginToDevice.ScanCountStaysSmall | app/src/main/java/com/imgtec/hobbyist/fragments/menu/setupguide/LoginToDeviceFragment.java:167-178 | the counter stays 0 or 1, and a connection starts only from 1 with the board present |
| LoginToDevice.LoginToDeviceScreen.constructor | app/src/main/java/com/imgtec/hobbyist/fragments/menu/setupguide/LoginToDeviceFragment.java:90 | counter 0, nothing armed, not listening |
| LoginToDevice.LoginToDeviceScreen.OnWifiScanCompleted | app/src/main/java/com/imgtec/hobbyist/fragments/menu/setupguide/LoginToDeviceFragment.java:167-240 | a detached screen ignores the scan and changes nothing; an attached one follows the counter rule; a started connection records the original network, turns WiFi on and leaves the saved networks as `WepConnect` gives them; it shows Connecting (timeout armed, listening) exactly when the enable answer is true, otherwise the settings dialog with the timeout cancelled |
| LoginToDevice.LoginToDeviceScreen.OnTimeout | app/src/main/java/com/imgtec/hobbyist/fragments/menu/setupguide/LoginToDeviceFragment.java:206-223 | the wrong-password dialog; the listener is removed |
| LoginToDevice.LoginToDeviceScreen.OnWifiConnected | app/src/main/java/com/imgtec/hobbyist/fragments/menu/setupguide/LoginToDeviceFragment.java:293-308 | only the board's connection cancels the timeout, stops listening and asks for the device info 500 ms later |
| LoginToDevice.LoginToDeviceScreen.OnPause | app/src/main/java/com/imgtec/hobbyist/fragments/menu/setupguide/LoginToDeviceFragment.java:123-127 | the timeout is cancelled and listening stops |
| SignUp.FlaggedFields | app/src/main/java/com/imgtec/hobbyist/fragments/loginsignup/SignUpFragment.java:164-187 | each field is flagged exactly when its own check fails, all three checked |
| SignUp.Validate | app/src/main/java/com/imgtec/hobbyist/fragments/loginsignup/SignUpFragment.java:164-187 | the form is valid exactly when the user name has at least 5 characters, the e-mail matches and the password has 5 to 32 |
| SignUp.SignUpEnabled | app/src/main/java/com/imgtec/hobbyist/fragments/loginsignup/SignUpFragment.java:152-161 | every password that passes validation enables the button |
| SignUp.UsernameCheckIgnoresCase | app/src/main/java/com/imgtec/hobbyist/fragments/loginsignup/SignUpFragment.java:142-147 | for an ASCII user name, lower-casing never changes the user-name length check |
| SignUp.EnabledButTooLong | app/src/main/java/com/imgtec/hobbyist/fragments/loginsignup/SignUpFragment.java:152-187 | a 33-character password enables the button but fails validation |
| SignUp.SignUpErrorMessage | app/src/main/java/com/imgtec/hobbyist/fragments/loginsignup/SignUpFragment.java:221-232 | the conflict message exactly for Conflict, the network message exactly for Network |
| SignUp.OnSignUpResult | app/src/main/java/com/imgtec/hobbyist/fragments/loginsignup/SignUpFragment.java:200-214 | success saves the user name as the e-mail credential; failure shows its message and writes nothing |
| LogInOrSignUp.AuthorizationQueryIsJoin | app/src/main/java/com/imgtec/creator/iup/fragments/loginsignup/LogInOrSignUpFragment.java:157-163 | the query is the six parameters joined by '&' |
| LogInOrSignUp.ParamsAvoidAmpersand | app/src/main/java/com/imgtec/creator/iup/fragments/loginsignup/LogInOrSignUpFragment.java:151-163 | no parameter contains '&' when the nonce does not |
| LogInOrSignUp.AuthorizationQueryReadsBack | app/src/main/java/com/imgtec/creator/iup/fragments/loginsignup/LogInOrSignUpFragment.java:149-167 | splitting the query on '&' gives back exactly the six parameters, the nonce among them |
| LogInOrSignUp.LoginFailureMessage | app/src/main/java/com/imgtec/creator/iup/fragments/loginsignup/LogInOrSignUpFragment.java:202-222 | Unauthorized, NotFound and Network each have their message, exactly |
| LogInOrSignUp.AutologinAtMostOnce | app/src/main/java/com/imgtec/creator/iup/fragments/loginsignup/LogInOrSignUpFragment.java:121-125 | over any series of resumes, at most one autologin attempt |
| LogInOrSignUp.AutologinStep | app/src/main/java/com/imgtec/creator/iup/fragments/loginsignup/LogInOrSignUpFragment.java:121-125 | an attempt happens exactly when autologin is enabled and still allowed, and uses the allowance up; a spent allowance is never regained |
| LogInOrSignUp.LogInOrSignUpScreen.constructor | app/src/main/java/com/imgtec/creator/iup/fragments/loginsignup/LogInOrSignUpFragment.java:85 | autologin allowed, no timeout |
| LogInOrSignUp.LogInOrSignUpScreen.OnResume | app/src/main/java/com/imgtec/creator/iup/fragments/loginsignup/LogInOrSignUpFragment.java:115-126 | attempts only when enabled and allowed, then disallows and arms the 30 s timeout |
| LogInOrSignUp.LogInOrSignUpScreen.OnLoginResult | app/src/main/java/com/imgtec/creator/iup/fragments/loginsignup/LogInOrSignUpFragment.java:182-222 | both answers cancel the timeout; a failure gives its message |
| LogInOrSignUp.LogInOrSignUpScreen.OnLoginTimeout | app/src/main/java/com/imgtec/creator/iup/fragments/loginsignup/LogInOrSignUpFragment.java:170-177 | the network message |
| LoginActivity.IdToken | app/src/main/java/com/imgtec/creator/iup/activities/LogInActivity.java:102 | no '#' gives the index error; a token holds neither '#' nor '=' |
| LoginActivity.IdTokenOfRedirect | app/src/main/java/com/imgtec/creator/iup/activities/LogInActivity.java:102 | `p#k=v…` yields `v` up to the next '=' |
| LoginActivity.IdTokenWithoutFragment | app/src/main/java/com/imgtec/creator/iup/activities/LogInActivity.java:102 | nothing after '#' is the index error |
| LoginActivity.IdTokenWithoutEquals | app/src/main/java/com/imgtec/creator/iup/activities/LogInActivity.java:102 | a fragment without '=' is the index error |
| LoginActivity.IdTokenWithEmptyValue | app/src/main/java/com/imgtec/creator/iup/activities/LogInActivity.java:102 | `k=` with an empty value is the index error |
| LoginActivity.LogInActivity.OnNewIntent | app/src/main/java/com/imgtec/creator/iup/activities/LogInActivity.java:91-118 | no URI is ignored; a URI without a token is an index error with nothing sent or stored; a token is posted with remember-me; success opens the main screen and stores both tokens, their expiry and the user's name, with autologin set only for remember-me; failure goes to the login failure handling, cancels its timeout and leaves the tokens cleared |
| Navigation.TextId | app/src/main/java/com/imgtec/creator/iup/fragments/navigationdrawer/NDMenuItem.java:46-78 | UserName and Separator have no text |
| Navigation.IconId | app/src/main/java/com/imgtec/creator/iup/fragments/navigationdrawer/NDMenuItem.java:46-82 | only Separator has no icon |
| Navigation.ModeMenusDifferOnlyAtFourthItem | app/src/main/java/com/imgtec/creator/iup/fragments/navigationdrawer/NDMenuItem.java:112-120 | both 9-item menus agree except at index 3 |
| Navigation.ItemsFor | app/src/main/java/com/imgtec/creator/iup/fragments/navigationdrawer/NDMenuFragment.java:116-133 | each mode's item array starts with UserName and ends with SignOut; only the initial one lacks MyDevice |
| Navigation.IsEnabled | app/src/main/java/com/imgtec/creator/iup/adapters/NDMenuAdapter.java:161-167 | false exactly for UserName and Separator |
| Navigation.DisabledRows | app/src/main/java/com/imgtec/creator/iup/adapters/NDMenuAdapter.java:161-167 | the disabled rows are row 0, plus rows 1 and 4 outside the initial mode |
| Navigation.SelectedItemTag | app/src/main/java/com/imgtec/creator/iup/fragments/navigationdrawer/NDMenuFragment.java:188-219 | SignOut has no tag; MyDevice has none exactly in the initial mode |
| Navigation.SelectedItemOpensDestination | app/src/main/java/com/imgtec/creator/iup/fragments/navigationdrawer/NDMenuFragment.java:181-219 | every item but SignOut opens its own screen through the factory |
| Navigation.MyDeviceTitle | app/src/main/java/com/imgtec/creator/iup/adapters/NDMenuAdapter.java:138-152 | the chosen device's name in interactive mode, the wizard's name in setup mode, unset otherwise |
| Navigation.NavigationDrawer.constructor | app/src/main/java/com/imgtec/creator/iup/fragments/navigationdrawer/NDMenuItem.java:58 | ConnectedDevices is checked at first |
| Navigation.NavigationDrawer.RestartNavigationDrawer | app/src/main/java/com/imgtec/creator/iup/fragments/navigationdrawer/NDMenuFragment.java:116-133 | sets the mode and shows its items |
| Navigation.NavigationDrawer.SetSelectionState | app/src/main/java/com/imgtec/creator/iup/fragments/navigationdrawer/NDMenuFragment.java:244-250 | the item, and only it, is checked |
| Navigation.NavigationDrawer.LogoutUser | app/src/main/java/com/imgtec/creator/iup/fragments/navigationdrawer/NDMenuFragment.java:225-241 | initial mode; the settings become the old ones with autologin off and both tokens "", every other key kept; ConnectedDevices checked again |
| Navigation.NavigationDrawer.SelectFragment | app/src/main/java/com/imgtec/creator/iup/fragments/navigationdrawer/NDMenuFragment.java:170-186 | SignOut logs out, leaving the settings as after a logout; any other item opens its screen, becomes checked and leaves the settings unchanged; nothing while detached |
| FragmentFactory.CreateFragment | app/src/main/java/com/imgtec/creator/iup/utils/SimpleFragmentFactory.java:61-106 | an unknown tag gives the device list; never the network choice |
| FragmentFactory.CreateFragmentWithFlag | app/src/main/java/com/imgtec/creator/iup/utils/SimpleFragmentFactory.java:108-119 | only the network-choice tag gives the network choice, with its flag passed through |
| FragmentFactory.CreateFragmentOfTag | app/src/main/java/com/imgtec/creator/iup/utils/SimpleFragmentFactory.java:61-106 | every screen but the network choice is created from its own tag |
| FragmentFactory.NetworkChoiceNeedsFlag | app/src/main/java/com/imgtec/creator/iup/utils/SimpleFragmentFactory.java:61-119 | the one-argument factory does not know the network-choice tag; the two-argument one does |
| NetworkChoice.NetworkChoiceScreen.ScanOnResume | app/src/main/java/com/imgtec/creator/iup/fragments/menu/setupguide/NetworkChoiceFragment.java:154-165 | a boards-only scan exactly in board mode |
| NetworkChoice.NetworkChoiceScreen.OnWifiScanCompleted | app/src/main/java/com/imgtec/creator/iup/fragments/menu/setupguide/NetworkChoiceFragment.java:167-197 | while attached, the scanned list itself is sorted and becomes the shown list, a permutation of the scan |
| NetworkChoice.NetworkChoiceScreen.OnItemClick | app/src/main/java/com/imgtec/creator/iup/fragments/menu/setupguide/NetworkChoiceFragment.java:134-148 | board mode stores only the board SSID and opens the key screen; otherwise stores only the user SSID and opens the WiFi form |
| SetupGuide.SetupGuideInfo.constructor | app/src/main/java/com/imgtec/creator/iup/utils/SetupGuideInfoSingleton.java:40-45 | all six fields null |
| SetupGuide.SetupGuideInfo.SetSsid | app/src/main/java/com/imgtec/creator/iup/utils/SetupGuideInfoSingleton.java:55-57 | writes one field |
| SetupGuide.SetupGuideInfo.SetBoardSsid | app/src/main/java/com/imgtec/creator/iup/utils/SetupGuideInfoSingleton.java:63-65 | writes one field |
| SetupGuide.SetupGuideInfo.SetDeviceName | app/src/main/java/com/imgtec/creator/iup/utils/SetupGuideInfoSingleton.java:71-73 | writes one field |
| SetupGuide.SetupGuideInfo.SetPskSecret | app/src/main/java/com/imgtec/creator/iup/utils/SetupGuideInfoSingleton.java:79-81 | writes one field |
| SetupGuide.SetupGuideInfo.SetPskIdentity | app/src/main/java/com/imgtec/creator/iup/utils/SetupGuideInfoSingleton.java:87-89 | writes one field |
| SetupGuide.SetupGuideInfo.SetBootstrapUrl | app/src/main/java/com/imgtec/creator/iup/utils/SetupGuideInfoSingleton.java:91-93 | writes one field |
| SetupGuide.LatestBoardSsidWins | app/src/main/java/com/imgtec/creator/iup/utils/SetupGuideInfoSingleton.java:59-65 | the board SSID read is the latest one written, whatever else is written after |
| SetupGuide.OtherWritesKeepBoardSsid | app/src/main/java/com/imgtec/creator/iup/utils/SetupGuideInfoSingleton.java:51-97 | writes to the other five fields never change the board SSID |
| Sorting.SortedByOrdersAllPairs | app/src/main/java/com/imgtec/creator/iup/fragments/menu/setupguide/NetworkChoiceFragment.java:182 | in a sorted list every earlier key is at most every later one |
| Sorting.SwapStep | app/src/main/java/com/imgtec/creator/iup/fragments/menu/setupguide/NetworkChoiceFragment.java:182 | swapping an out-of-order neighbour pair extends the sorted part |
| Sorting.SwapPermutes | app/src/main/java/com/imgtec/creator/iup/fragments/menu/setupguide/NetworkChoiceFragment.java:182 | a swap keeps the elements |
| Sorting.InsertAt | app/src/main/java/com/imgtec/creator/iup/fragments/menu/setupguide/NetworkChoiceFragment.java:182 | inserting one element keeps the prefix sorted and the elements the same |
| Sorting.SortBy | app/src/main/java/com/imgtec/creator/iup/fragments/menu/setupguide/NetworkChoiceFragment.java:182 | the array ends sorted by key under `compareTo`, as a permutation of what it held |
| MainActivity.BackPress | app/src/main/java/com/imgtec/creator/iup/activities/CreatorActivity.java:267-278 | a non-empty back stack pops; otherwise exit exactly within 3000 ms of the last toast, else toast and remember the time |
| MainActivity.DoubleTapExits | app/src/main/java/com/imgtec/creator/iup/activities/CreatorActivity.java:267-278 | a slow press toasts and a second press within 3 s exits |
| MainActivity.SlowTapsNeverExit | app/src/main/java/com/imgtec/creator/iup/activities/CreatorActivity.java:267-278 | presses at least 3 s apart only ever toast |
| MainActivity.ProperMode | app/src/main/java/com/imgtec/creator/iup/activities/CreatorActivity.java:302-310 | setup exactly when the board is joined; interactive exactly when a device is chosen and no board is joined |
| MainActivity.CreatorActivity.constructor | app/src/main/java/com/imgtec/creator/iup/activities/CreatorActivity.java:110-128 | the drawer starts in the initial mode |
| MainActivity.CreatorActivity.OnBackPressed | app/src/main/java/com/imgtec/creator/iup/activities/CreatorActivity.java:267-278 | follows the back-press rule |
| MainActivity.CreatorActivity.OnSelectionAndTitleChange | app/src/main/java/com/imgtec/creator/iup/activities/CreatorActivity.java:207-213 | the item is checked; an item with text titles the toolbar |
| MainActivity.CreatorActivity.SetUIMode | app/src/main/java/com/imgtec/creator/iup/activities/CreatorActivity.java:256-258 | the drawer restarts in that mode |
| MainActivity.CreatorActivity.SetInteractiveToInitialMode | app/src/main/java/com/imgtec/creator/iup/activities/CreatorActivity.java:260-264 | only the interactive mode falls back to initial |
| MainActivity.CreatorActivity.OnResume | app/src/main/java/com/imgtec/creator/iup/activities/CreatorActivity.java:140-172 | the proper mode; the name request only while a board is joined; a name received is stored and selects setup; a failure toasts; an answer outside 2xx has no body, so reading its name throws and nothing is stored |
| Wifire.SetName | app/src/main/java/com/imgtec/hobbyist/wifire/WifireDevice.java:70-72 | the name changes and the links are kept |
| Wifire.SetNameRoundTrip | app/src/main/java/com/imgtec/hobbyist/wifire/WifireDevice.java:66-72 | renaming back restores the device |
| Wifire.CompareDevices | app/src/main/java/com/imgtec/hobbyist/wifire/WifireDevice.java:123-125 | compareTo is zero exactly for devices of the same name |
| Wifire.Equals | app/src/main/java/com/imgtec/hobbyist/wifire/WifireDevice.java:128-130 | equals holds exactly for another device that compareTo ranks even |
| Wifire.DeviceHashCode | app/src/main/java/com/imgtec/hobbyist/wifire/WifireDevice.java:133-135 | the hash is a Java int |
| Wifire.ComparatorAgreesWithCompareTo | app/src/main/java/com/imgtec/hobbyist/wifire/WifireDevice.java:123-143 | COMPARATOR and compareTo agree, and compare zero exactly on equal devices |
| Wifire.CompareDevicesAntisymmetric | app/src/main/java/com/imgtec/hobbyist/wifire/WifireDevice.java:123-125 | swapping the devices negates compareTo |
| Wifire.EqualsIsConsistent | app/src/main/java/com/imgtec/hobbyist/wifire/WifireDevice.java:128-135 | equals is an equivalence, false for other objects and null, and equal devices hash equally |
| Wifire.RenamedEqualsOriginal | app/src/main/java/com/imgtec/hobbyist/wifire/WifireDevice.java:70-72 | a rename keeps equality with the old device exactly when the name is unchanged |
| ConnectedDevices.WifireClients | app/src/main/java/com/imgtec/hobbyist/fragments/menu/ConnectedDevicesFragment.java:164-169 | only clients whose name starts with "WiFire", each such client included |
| ConnectedDevices.NoWifireClients | app/src/main/java/com/imgtec/hobbyist/fragments/menu/ConnectedDevicesFragment.java:191-197 | the list is empty exactly when no client is a board |
| ConnectedDevices.FilterDevices | app/src/main/java/com/imgtec/hobbyist/fragments/menu/ConnectedDevicesFragment.java:164-169 | the loop computes the filtered list in response order |
| ConnectedDevices.MarkedIn | app/src/main/java/com/imgtec/hobbyist/adapters/ConnectedDevicesAdapter.java:96-104 | exactly the marked positions, each once |
| ConnectedDevices.DeviceHelper.SetDevice | app/src/main/java/com/imgtec/hobbyist/fragments/menu/ConnectedDevicesFragment.java:225 | the chosen device becomes the current one |
| ConnectedDevices.ConnectedDevicesAdapter.constructor | app/src/main/java/com/imgtec/hobbyist/adapters/ConnectedDevicesAdapter.java:62-67 | shares the list; nothing marked |
| ConnectedDevices.ConnectedDevicesAdapter.MarkedPositions | app/src/main/java/com/imgtec/hobbyist/adapters/ConnectedDevicesAdapter.java:88-91 | exactly the positions that read as checked |
| ConnectedDevices.ConnectedDevicesAdapter.SwitchContextualChecked | app/src/main/java/com/imgtec/hobbyist/adapters/ConnectedDevicesAdapter.java:74-81 | flips one position and no other |
| ConnectedDevices.ConnectedDevicesAdapter.ClearContextualSelected | app/src/main/java/com/imgtec/hobbyist/adapters/ConnectedDevicesAdapter.java:109-111 | no position is checked |
| ConnectedDevices.ConnectedDevicesAdapter.GetContextualSelectedDevices | app/src/main/java/com/imgtec/hobbyist/adapters/ConnectedDevicesAdapter.java:96-104 | the devices at the marked positions in map order; a marked position outside the list throws |
| ConnectedDevices.ConnectedDevicesAdapter.Sort | app/src/main/java/com/imgtec/hobbyist/fragments/menu/ConnectedDevicesFragment.java:234 | the shared list is sorted by name, a permutation of itself |
| ConnectedDevices.ConnectedDevicesAdapter.HighlightedRows | app/src/main/java/com/imgtec/hobbyist/adapters/ConnectedDevicesAdapter.java:120-155 | the rows drawn as checked lie in the list; in single-choice mode at most one, and exactly the checked row when it is in the list; in contextual mode exactly the marked rows of the list |
| ConnectedDevices.ConnectedDevicesScreen.constructor | app/src/main/java/com/imgtec/hobbyist/fragments/menu/ConnectedDevicesFragment.java:150-153 | no devices, no row checked, interact off |
| ConnectedDevices.ConnectedDevicesScreen.OnClientsReceived | app/src/main/java/com/imgtec/hobbyist/fragments/menu/ConnectedDevicesFragment.java:160-256 | the shown list is the boards sorted by name; none leads to the no-devices screen and the initial menu, and the previous adapter stays; otherwise a new adapter holds the sorted list and row 0 is selected |
| ConnectedDevices.ConnectedDevicesScreen.GetDevices | app/src/main/java/com/imgtec/hobbyist/fragments/menu/ConnectedDevicesFragment.java:155-189 | asks for one page from 0 of 100; a failure changes nothing |
| ConnectedDevices.ConnectedDevicesScreen.OnItemClick | app/src/main/java/com/imgtec/hobbyist/fragments/menu/ConnectedDevicesFragment.java:237-247 | the clicked row is checked and interact is on |
| ConnectedDevices.ConnectedDevicesScreen.Interact | app/src/main/java/com/imgtec/hobbyist/fragments/menu/ConnectedDevicesFragment.java:213-228 | records interactive mode, makes the checked device current, switches to the interactive menu and opens the commands screen; an invalid row throws after the write |
| GifView.SplitPath | app/src/main/java/com/imgtec/hobbyist/views/GifWebView.java:56-57 | folder + file name is the path; the folder ends with '/' or is empty; the name has no '/' |
| GifView.SplitPathUnique | app/src/main/java/com/imgtec/hobbyist/views/GifWebView.java:56-57 | the split is the only such cut |
| GifView.Html | app/src/main/java/com/imgtec/hobbyist/views/GifWebView.java:58 | the page is the fixed prefix, the file name and the fixed suffix |
| GifView.Load | app/src/main/java/com/imgtec/hobbyist/views/GifWebView.java:58 | the folder is the base URL of a UTF-8 HTML page with no history URL |
| GifView.LoadResolvesToPath | app/src/main/java/com/imgtec/hobbyist/views/GifWebView.java:56-58 | the base URL plus the image source read back is the configured path |
| JavaLang.RemoveChar | app/src/main/java/com/imgtec/creator/iup/utils/WifiUtil.java:83 | removing a character leaves none of it, and a string without it unchanged |
| JavaLang.UnquoteQuoted | app/src/main/java/com/imgtec/creator/iup/utils/WifiUtil.java:83 | removing the quotes around a quote-free text gives the text back |
| JavaLang.FieldsOfJoin | app/src/main/java/com/imgtec/creator/iup/fragments/loginsignup/LogInOrSignUpFragment.java:157-163 | pieces without the separator, joined, split back into the same pieces |
| JavaLang.JoinFields | app/src/main/java/com/imgtec/creator/iup/fragments/loginsignup/LogInOrSignUpFragment.java:157-163 | the pieces of a text rejoined give the text back |
| JavaLang.SplitOfTwo | app/src/main/java/com/imgtec/creator/iup/activities/LogInActivity.java:102 | one separator between non-empty text gives two pieces |
| JavaLang.LastIndexOf | app/src/main/java/com/imgtec/hobbyist/views/GifWebView.java:56-57 | the last position of the character, or -1 |
| JavaLang.CompareToZero | app/src/main/java/com/imgtec/hobbyist/wifire/WifireDevice.java:123-125 | compareTo, over UTF-16 code units, is 0 exactly on equal strings |
| JavaLang.CompareToTransitive | app/src/main/java/com/imgtec/hobbyist/wifire/WifireDevice.java:137-143 | the compareTo order is transitive |
| JavaLang.CharUnits | app/src/main/java/com/imgtec/hobbyist/wifire/WifireDevice.java:123-125 | a character is one UTF-16 unit inside the Basic Multilingual Plane, and otherwise a high surrogate followed by a low one |
| JavaLang.CharUnitsInjective | app/src/main/java/com/imgtec/hobbyist/wifire/WifireDevice.java:123-125 | distinct characters have distinct UTF-16 units |
| JavaLang.Utf16Injective | app/src/main/java/com/imgtec/hobbyist/wifire/WifireDevice.java:123-125 | distinct strings have distinct UTF-16 encodings |
| JavaLang.CompareToAntisymmetric | app/src/main/java/com/imgtec/hobbyist/wifire/WifireDevice.java:123-125 | swapping the strings negates compareTo |
| JavaLang.SupplementarySortsBySurrogate | app/src/main/java/com/imgtec/hobbyist/wifire/WifireDevice.java:123-125 | a supplementary character compares by its high surrogate, so U+1F600 sorts before U+FF01 |
| JavaLang.HashUnits | app/src/main/java/com/imgtec/hobbyist/wifire/WifireDevice.java:133-135 | the hash of UTF-16 units is a Java int |
| JavaLang.SupplementaryHashesBySurrogates | app/src/main/java/com/imgtec/hobbyist/wifire/WifireDevice.java:133-135 | hashCode runs over the two surrogates of a supplementary character |
| JavaLang.ToDigitsRoundTrip | app/src/main/java/com/imgtec/hobbyist/ds/DSService.java:442 | reading back the printed digits gives the number |
| JavaLang.IntToStringInjective | app/src/main/java/com/imgtec/hobbyist/ds/DSService.java:442 | distinct numbers print differently |
| JavaLang.ParseLong16OfDigits | app/src/main/java/com/imgtec/hobbyist/fragments/menu/setupguide/LoginToDeviceFragment.java:282-290 | `Long.parseLong(s, 16)` reads back the hex digits of every value up to the largest signed long |

## Left out

- HTTP transport and serialisation are not modelled: OkHttp, Retrofit, Gson and SimpleXML. A response is a status with an already-decoded body, or an I/O failure. The XML element names and `required` flags of the two payload records appear only as `HasRequiredElements`.
- OkHttp's retry policy around the authenticator is not modelled, nor the exchange of headers between the interceptor and the authenticator beyond the request they return.
- Concurrency is not modelled: executors, futures, handler posts and the lock on the original network id. Every callback and timer is an event method that runs whole. The race between a posted refresh and a pause is not modelled.
- Hash-map iteration order is replaced:
  - Query and form parameters are visited in the order given.
  - `GetContextualSelectedDevices` takes the visit order as a parameter.
- Sensor values are Java floats, modelled as `real`. They are only copied.
- Android services are abstract state: WifiManager, ConnectivityManager, permissions and the `Build.VERSION` branches. The scan, the saved networks, the current connection and the connectivity flags are fields or parameters.
- Views, dialogs, toasts, animations, progress indicators and titles are not modelled. Where a toast or dialog is the outcome, a `Notice`, `Message` or `Outcome` value stands for it.
- `Patterns.EMAIL_ADDRESS` is the parameter `emailMatches`. The random UUID nonce and `System.currentTimeMillis` are parameters.
- Label values are assumed, because the Android resource files are not part of this model:
  - the encryption labels sent for each protocol ("WEP", "WPA", "WPA2", "OPEN");
  - the addressing labels ("DHCP", "STATIC").
- Fragment tags:
  - The drawer items' texts and icons are the resource names.
  - `AboutFragment.java` is not part of this model. Its tag is taken as its class name.
- `DeviceHelper.java` is not part of this model. Its current device is a field set by `SetDevice`.
- The hobbyist `LogInActivity.java` repeats the creator copy's token extraction and is modelled once.
- `createAccount`, `generatePSK`, `getBootstrap`, `resetConnection` and the Device Server listing wrappers (`getClients`, `getClient`, `getInstances`, `updateInstance`) are not modelled. The wrappers only hand the internal operations to the executor.
- The contextual (multi-select) action mode of the device list is never entered in the source's flow, so the screen keeps single-choice mode.
- NDMenuAdapter's `getCount` and `getItem` are the length and indexing of the drawer's `items` sequence. They have no separate members.
- The payload getters are the datatypes' fields. The 8- and 6-argument constructors are the datatype constructors.
- Wifire: the status, uptime, health and RSSI getters and setters of `WifireDevice` are not modelled.
- Wifire.SetName: the device is a value here. In Java, `setName` renames the shared client object that every holder of the device sees.
- Sorting.SortBy: stability is not stated. Equal keys are never swapped, but no contract says so.
- GifView.Load: a missing path attribute (null) throws in the source. Here the path is always present.
- ConnectedDevices.ConnectedDevicesScreen.OnClientsReceived: a client with a null name would throw in the source; names are never null here.
- Connecting.ConnectingScreen.OnResume: setting the drawer to the initial mode and the title are not part of this member.
- Connecting: the interrupted-thread paths of the poll are not modelled.
- LoginActivity.LogInActivity.OnNewIntent: on success the login screen's timeout is not cancelled, as in the source.
- LoginToDevice.LoginToDeviceScreen.OnWifiScanCompleted: the rescan request, the progress indicator and the dialogs are outcomes, not calls.
- SignUp.UsernameCheckIgnoresCase: stated for ASCII user names only. Java's `toLowerCase(Locale.US)` can lengthen a string (U+0130 becomes two characters), which can turn a four-character name into a five-character one; the model's lower-casing does not.
- JavaLang.ToLowerUS and JavaLang.EqualsIgnoreCase fold only the ASCII letters A-Z and never change a string's length. Java uses the full Unicode case mappings, which change other letters and, for U+0130, the length.
- JavaLang.DigitValue and JavaLang.ParseLong16 accept only ASCII hexadecimal digits. Java's `Character.digit` also accepts other Unicode decimal digits (for example Arabic-Indic digits) and full-width letters.
- String lengths and positions are counted in Unicode scalar values: `length()`, the field-length checks, `substring` and `lastIndexOf`. Java counts UTF-16 code units, so a character outside the Basic Multilingual Plane counts once here and twice in Java. `compareTo` and `hashCode` do work on UTF-16 code units (`JavaLang.Utf16`).
- Connecting.ConnectingScreen.OnPoll: a listed client with a null name throws in the source (`getName().equals`); client names are never null here.
- DeviceServer.FindClient and DeviceServer.GetClientInternal: a listed client with a null name throws in the source; client names are never null here.
- DeviceServer.ExpiryTime and DeviceServer.DsClient.SaveAccessToken compute `now + 1000 * expiresIn` on unbounded integers. The token class is not part of this model. If its `getExpiresIn()` returns an `int`, Java's `1000 * expiresIn` is 32-bit and wraps for lifetimes above 2147483 seconds, before the sum is widened to a `long`.
- LogInToWifi.Provision: one flag per answer stands for both `isAdded()` and a set menu listener, which the source checks separately (`LogInToWifiFragment.java:403-405`). Both hold between `onAttach` and `onDetach`.
- Constants.DEFAULT_MAXIMUM_FIELD_CHARACTERS_COUNT: a mutable `public static int` in Java, modelled as a constant because nothing in the app reassigns it.

