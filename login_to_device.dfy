/**
 * The setup-wizard screen where the user types the board's WEP key: the key check that
 * enables the connect button, the "scan twice before connecting" rule, the connection
 * attempt with its wrong-password timeout, and the hand-over once the board is joined.
 */
module LoginToDevice {
  import opened Wrappers
  import opened JavaLang
  import opened Constants
  import WifiUtil

  /** The wrong-password dialog appears this long after the connection attempt starts. */
  const WRONG_PASSWORD_TIMEOUT_MILLIS: int := THIRTY_SECONDS_MILLIS
  /** The device-info request waits this long after the board is joined. */
  const DEVICE_INFO_DELAY_MILLIS: int := 500

  /**
   * `isHexadecimal`: whether `Long.parseLong(text, 16)` succeeds; a text that does is an
   * optional sign followed by at least one hexadecimal digit.
   */
  predicate IsHexadecimal(text: string)
    ensures IsHexadecimal(text) ==> |text| >= 1
    ensures IsHexadecimal(text) ==>
              var digits := if text[0] == '-' || text[0] == '+' then text[1..] else text;
              |digits| >= 1 && AllDigits(digits, 16)
  {
    ParseLong16(text).Some?
  }

  /**
   * The connect button is enabled for a key of at least ten characters that parses as
   * hexadecimal: every character after the first is a hexadecimal digit.
   */
  predicate ConnectEnabled(key: string)
    ensures ConnectEnabled(key) ==>
              |key| >= WEP_64_BIT_SECRET_KEY_HEXADECIMAL_LENGTH
              && forall i :: 1 <= i < |key| ==> 0 <= DigitValue(key[i]) < 16
  {
    if |key| >= WEP_64_BIT_SECRET_KEY_HEXADECIMAL_LENGTH && IsHexadecimal(key) then
      var digits := if key[0] == '-' || key[0] == '+' then key[1..] else key;
      assert forall i :: 1 <= i < |key| ==> key[i] == digits[i - (|key| - |digits|)];
      true
    else false
  }

  lemma {:induction false} PowMonotone(b: nat, e1: nat, e2: nat)
    requires b >= 1 && e1 <= e2
    ensures Pow(b, e1) <= Pow(b, e2)
    decreases e2
  {
    if e1 < e2 {
      PowMonotone(b, e1, e2 - 1);
      MulMonotone(1, b, Pow(b, e2 - 1));
    }
  }

  /** Any string of up to fifteen hexadecimal digits is accepted; ten of them enable connect. */
  lemma ShortHexKeyAccepted(key: string)
    requires 1 <= |key| <= 15 && AllDigits(key, 16)
    ensures IsHexadecimal(key)
    ensures |key| == 10 ==> ConnectEnabled(key)
  {
    ValueOfUpperBound(key, 16);
    PowMonotone(16, |key|, 15);
    assert Pow(16, 15) == 0x1000_0000_0000_0000;
    assert key[0] != '-' && key[0] != '+' by { assert 0 <= DigitValue(key[0]); }
  }

  /** Seventeen or more digits without leading zeros exceed a signed 64-bit long, with or without a sign. */
  lemma LongKeyRejected(sign: string, digits: string)
    requires sign in {"", "-", "+"}
    requires |digits| >= 17 && AllDigits(digits, 16) && DigitValue(digits[0]) > 0
    ensures !IsHexadecimal(sign + digits)
    ensures !ConnectEnabled(sign + digits)
  {
    var s := sign + digits;
    ValueOfLowerBound(digits, 16);
    PowMonotone(16, 16, |digits| - 1);
    assert Pow(16, 15) == 0x1000_0000_0000_0000;
    assert Pow(16, 16) == 16 * Pow(16, 15);
    if sign == "" {
      assert s == digits;
      assert s[0] != '-' && s[0] != '+' by { assert 0 <= DigitValue(s[0]); }
    } else {
      assert s[1..] == digits;
    }
  }

  /**
   * The check is Long.parseLong's, so a sign passes: a '+' or '-' followed by nine to
   * fifteen hexadecimal digits enables connect though it is not a WEP key.
   */
  lemma SignedKeyEnablesConnect(sign: string, digits: string)
    requires sign in {"-", "+"}
    requires 9 <= |digits| <= 15 && AllDigits(digits, 16)
    ensures ConnectEnabled(sign + digits)
  {
    var s := sign + digits;
    assert s[1..] == digits;
    ValueOfUpperBound(digits, 16);
    PowMonotone(16, |digits|, 15);
    assert Pow(16, 15) == 0x1000_0000_0000_0000;
  }

  /** What a completed board scan does while the key is being tried. */
  datatype ScanAction = Rescan | StartConnection | BoardNotAvailable

  /**
   * The scan counter rule: the first scan that sees the board asks for another scan (a scan
   * can list networks that no longer exist); the next one starts the connection.
   */
  function ScanStep(count: int, boardPresent: bool): (r: (int, ScanAction))
    ensures r.1 == BoardNotAvailable <==> !boardPresent
    ensures r.1 == BoardNotAvailable ==> r.0 == count
    ensures r.1 == StartConnection ==> r.0 == 0
  {
    if !boardPresent then (count, BoardNotAvailable)
    else if count < 1 then (count + 1, Rescan)
    else (0, StartConnection)
  }

  /** The counter only takes the values 0 and 1, and a connection starts only from 1. */
  lemma ScanCountStaysSmall(count: int, boardPresent: bool)
    requires 0 <= count <= 1
    ensures 0 <= ScanStep(count, boardPresent).0 <= 1
    ensures ScanStep(count, boardPresent).1 == StartConnection <==> boardPresent && count == 1
  {
  }

  /** From a fresh counter, two scans in a row that see the board start the connection, and not one. */
  lemma TwoScansStartConnection()
    ensures ScanStep(0, true).1 == Rescan
    ensures ScanStep(ScanStep(0, true).0, true) == (0, StartConnection)
  {
  }

  /** The outcome of a scan or a timer, as the user sees it; `Ignored` for a scan a detached screen drops. */
  datatype Outcome = Rescanned | Connecting | SettingsDialog | NotAvailableDialog | WrongPasswordDialog | Ignored

  class LoginToDeviceScreen {
    /** The board SSID recorded by the wizard when the view was created. */
    const boardSsid: Option<string>
    var wifiScanCount: int
    /** When the wrong-password dialog is due, if the timeout is armed. */
    var timeoutDue: Option<int>
    /** Whether the screen listens for WiFi connections. */
    var listening: bool
    /** When the device-info request is due, once the board is joined. */
    var deviceInfoDue: Option<int>

    ghost predicate Valid()
      reads this
    {
      0 <= wifiScanCount <= 1
    }

    constructor (boardSsid: Option<string>)
      ensures Valid() && this.boardSsid == boardSsid && wifiScanCount == 0
      ensures timeoutDue.None? && !listening && deviceInfoDue.None?
    {
      this.boardSsid := boardSsid;
      wifiScanCount := 0;
      timeoutDue := None;
      listening := false;
      deviceInfoDue := None;
    }

    /** The scan's SSID list contains the board's; a null board SSID is never contained. */
    predicate BoardIn(ssids: seq<string>)
      reads this
    {
      boardSsid.Some? && boardSsid.value in ssids
    }

    /**
     * `onWifiScanCompleted`. The scan is handled only while the screen is attached (its menu
     * listener is set); a detached screen ignores it. When the connection starts, the timeout
     * is armed first; if `connectToWepNetwork` then fails, the timeout is cancelled and no
     * listener is added.
     */
    method OnWifiScanCompleted(now: int, ssids: seq<string>, attached: bool, wifi: WifiUtil.WifiUtil, password: string,
                               assignedId: int, updateAccepted: bool, enableAccepts: int -> bool)
      returns (outcome: Outcome)
      requires Valid() && wifi.Valid() && assignedId >= -1
      modifies this, wifi
      ensures Valid() && wifi.Valid()
      ensures !attached ==> outcome == Ignored && unchanged(this) && unchanged(wifi)
      ensures attached ==> var step := ScanStep(old(wifiScanCount), BoardIn(ssids));
        wifiScanCount == step.0
        && (step.1 == Rescan ==> outcome == Rescanned)
        && (step.1 == BoardNotAvailable ==> outcome == NotAvailableDialog)
        && (step.1 != StartConnection ==>
              (timeoutDue == old(timeoutDue) && listening == old(listening) && unchanged(wifi)))
        && (step.1 == StartConnection ==>
              (BoardIn(ssids) && outcome in {Connecting, SettingsDialog}
               && wifi.originalNetworkId == old(wifi.connection.networkId) && wifi.wifiEnabled
               && var (configured, ok) := WifiUtil.WifiUtil.WepConnect(old(wifi.configured), boardSsid.value, password,
                                                                     assignedId, updateAccepted, enableAccepts);
                  wifi.configured == configured && (outcome == Connecting <==> ok)))
      ensures outcome == Connecting ==> timeoutDue == Some(now + WRONG_PASSWORD_TIMEOUT_MILLIS) && listening
      ensures outcome == SettingsDialog ==> timeoutDue.None? && listening == old(listening)
      ensures deviceInfoDue == old(deviceInfoDue)
    {
      if !attached {
        outcome := Ignored;
      } else if boardSsid.Some? && boardSsid.value in ssids {
        if wifiScanCount < 1 {
          wifiScanCount := wifiScanCount + 1;
          outcome := Rescanned;
        } else {
          timeoutDue := Some(now + WRONG_PASSWORD_TIMEOUT_MILLIS);
          var ok := wifi.ConnectToWepNetwork(boardSsid.value, password, assignedId, updateAccepted, enableAccepts);
          if !ok {
            timeoutDue := None;
            outcome := SettingsDialog;
          } else {
            listening := true;
            outcome := Connecting;
          }
          wifiScanCount := 0;
        }
      } else {
        outcome := NotAvailableDialog;
      }
    }

    /** The wrong-password timeout: the dialog is shown and the listener removed. */
    method OnTimeout() returns (outcome: Outcome)
      requires timeoutDue.Some?
      modifies this`timeoutDue, this`listening
      ensures timeoutDue.None? && !listening && outcome == WrongPasswordDialog
    {
      timeoutDue := None;
      listening := false;
      outcome := WrongPasswordDialog;
    }

    /** `onWiFiConnected`: only a connection to the board stops the timeout and asks for the device info. */
    method OnWifiConnected(now: int, wifi: WifiUtil.WifiUtil)
      requires listening
      modifies this`timeoutDue, this`listening, this`deviceInfoDue
      ensures wifi.IsBoardConnected() ==>
                (timeoutDue.None? && !listening && deviceInfoDue == Some(now + DEVICE_INFO_DELAY_MILLIS))
      ensures !wifi.IsBoardConnected() ==>
                (timeoutDue == old(timeoutDue) && listening && deviceInfoDue == old(deviceInfoDue))
    {
      if wifi.IsBoardConnected() {
        timeoutDue := None;
        listening := false;
        deviceInfoDue := Some(now + DEVICE_INFO_DELAY_MILLIS);
      }
    }

    method OnPause()
      modifies this`timeoutDue, this`listening
      ensures timeoutDue.None? && !listening
    {
      listening := false;
      timeoutDue := None;
    }
  }
}
