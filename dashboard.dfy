/**
 * The interactive dashboard of one board: every two seconds it reads four IPSO Smart
 * Object collections from the Device Server into fixed-size state arrays, and it toggles
 * the board's LEDs on request. Each Device Server call is given as its outcome.
 */
module Dashboard {
  import opened Wrappers
  import opened DeviceServer

  /** IPSO Smart Object ids of the collections the dashboard reads. */
  const LIGHT_CONTROL_OBJECT_ID: int := 3311
  const DIGITAL_INPUT_OBJECT_ID: int := 3200
  const TEMPERATURE_OBJECT_ID: int := 3303
  const ANALOG_INPUT_OBJECT_ID: int := 3202

  /** The delay before the next refresh is run. */
  const REFRESH_DELAY_MILLIS: int := 2000

  /** What the four collections hold, reduced to the value the dashboard reads from each item. */
  datatype Collections = Collections(lights: seq<bool>, inputs: seq<bool>, temperatures: seq<real>, analogs: seq<real>)

  /** The values a successful refresh shows. */
  datatype Readings = Readings(leds: seq<bool>, buttons: seq<bool>, temperature: real, analog: real)

  /** The message or dialog a failure leads to. */
  datatype Notice = UnauthorizedToast | InvalidResponseToast | NetworkToast | UnknownToast | OfflineDialog

  /** A refresh needs at least 4 light controls, 2 digital inputs, 1 temperature and 1 analog input. */
  predicate HasEnoughItems(c: Collections)
  {
    |c.lights| >= 4 && |c.inputs| >= 2 && |c.temperatures| >= 1 && |c.analogs| >= 1
  }

  /**
   * A refresh: the first failing call gives the error; complete collections that are too
   * small fail with Parse; otherwise the first items of each collection are read.
   */
  function Refresh(client: Result<Client, DsError>, lights: Result<seq<bool>, DsError>,
                   inputs: Result<seq<bool>, DsError>, temperatures: Result<seq<real>, DsError>,
                   analogs: Result<seq<real>, DsError>): (r: Result<Readings, DsError>)
    ensures r.Ok? <==> client.Ok? && lights.Ok? && inputs.Ok? && temperatures.Ok? && analogs.Ok?
                       && HasEnoughItems(Collections(lights.value, inputs.value, temperatures.value, analogs.value))
    ensures r.Ok? ==> r.value == Readings(lights.value[..4], inputs.value[..2], temperatures.value[0], analogs.value[0])
    ensures client.Err? ==> r == Err(client.error)
    ensures client.Ok? && lights.Ok? && inputs.Ok? && temperatures.Ok? && analogs.Ok? && r.Err? ==> r.error == Parse
  {
    if client.Err? then Err(client.error)
    else if lights.Err? then Err(lights.error)
    else if inputs.Err? then Err(inputs.error)
    else if temperatures.Err? then Err(temperatures.error)
    else if analogs.Err? then Err(analogs.error)
    else if |lights.value| < 4 then Err(Parse)
    else if |inputs.value| < 2 then Err(Parse)
    else if |temperatures.value| < 1 then Err(Parse)
    else if |analogs.value| < 1 then Err(Parse)
    else Ok(Readings(lights.value[..4], inputs.value[..2], temperatures.value[0], analogs.value[0]))
  }

  /** `handleRefreshFailure`: NotFound shows the offline dialog; every other error has its toast. */
  function RefreshFailureNotice(e: DsError): (n: Notice)
    ensures n == OfflineDialog <==> e == NotFound
  {
    match e
    case Unauthorized => UnauthorizedToast
    case Parse => InvalidResponseToast
    case Network => NetworkToast
    case NotFound => OfflineDialog
    case _ => UnknownToast
  }

  /** `handleSetLedFailure`: NotFound shows the offline dialog, Network its toast, anything else the unknown toast. */
  function LedFailureNotice(e: DsError): (n: Notice)
    ensures n == OfflineDialog <==> e == NotFound
    ensures n in {OfflineDialog, NetworkToast, UnknownToast}
  {
    if e == NotFound then OfflineDialog
    else if e == Network then NetworkToast
    else UnknownToast
  }

  /** Refresh errors that are not NotFound each have a different toast. */
  lemma RefreshToastsAreDistinct(e1: DsError, e2: DsError)
    requires e1 != e2 && e1 in {Unauthorized, Parse, Network} && e2 != NotFound
    ensures RefreshFailureNotice(e1) != RefreshFailureNotice(e2)
  {
  }

  /** The four LED views. */
  datatype Led = Led1 | Led2 | Led3 | Led4

  /** The Light Control instance each LED view stands for. */
  function InstanceId(led: Led): (id: nat)
    ensures id < 4
  {
    match led
    case Led1 => 0
    case Led2 => 1
    case Led3 => 2
    case Led4 => 3
  }

  /** Distinct LEDs control distinct instances. */
  lemma InstanceIdInjective(a: Led, b: Led)
    requires InstanceId(a) == InstanceId(b)
    ensures a == b
  {
  }

  /** The LED states after the LED at `i` is flipped. */
  function Toggled(states: seq<bool>, i: nat): (r: seq<bool>)
    requires i < |states|
    ensures |r| == |states| && r[i] == !states[i]
    ensures forall j :: 0 <= j < |states| && j != i ==> r[j] == states[j]
  {
    states[i := !states[i]]
  }

  /** Flipping the same LED twice restores the states. */
  lemma ToggledTwice(states: seq<bool>, i: nat)
    requires i < |states|
    ensures Toggled(Toggled(states, i), i) == states
  {
  }

  /** The update a LED click sends: the instance and its new on/off value. */
  datatype LightUpdate = LightUpdate(instanceId: nat, onOff: bool)

  class DashboardScreen {
    const ledStates: array<bool>
    const buttonStates: array<bool>
    const temperatureValues: array<real>
    const analogInputValues: array<real>
    /** When the pending refresh runs, if one is pending. */
    var refreshDue: Option<int>

    ghost predicate Valid()
      reads this
    {
      ledStates.Length == 4 && buttonStates.Length == 2
      && temperatureValues.Length == 1 && analogInputValues.Length == 1
      && ledStates != buttonStates && temperatureValues != analogInputValues
    }

    constructor ()
      ensures Valid() && refreshDue.None?
      ensures ledStates[..] == [false, false, false, false] && buttonStates[..] == [false, false]
      ensures temperatureValues[..] == [0.0] && analogInputValues[..] == [0.0]
    {
      ledStates := new bool[4](_ => false);
      buttonStates := new bool[2](_ => false);
      temperatureValues := new real[1](_ => 0.0);
      analogInputValues := new real[1](_ => 0.0);
      refreshDue := None;
    }

    /** `onResume` posts a refresh right away. */
    method OnResume(now: int)
      modifies this`refreshDue
      ensures refreshDue == Some(now)
    {
      refreshDue := Some(now);
    }

    /** `onPause` removes any pending refresh. */
    method OnPause()
      modifies this`refreshDue
      ensures refreshDue.None?
    {
      refreshDue := None;
    }

    /** `handleRefreshSuccess`: copy the first items into the state arrays. */
    method ShowReadings(r: Readings)
      requires Valid() && |r.leds| == 4 && |r.buttons| == 2
      modifies ledStates, buttonStates, temperatureValues, analogInputValues
      ensures ledStates[..] == r.leds && buttonStates[..] == r.buttons
      ensures temperatureValues[..] == [r.temperature] && analogInputValues[..] == [r.analog]
    {
      ledStates[0] := r.leds[0];
      ledStates[1] := r.leds[1];
      ledStates[2] := r.leds[2];
      ledStates[3] := r.leds[3];
      buttonStates[0] := r.buttons[0];
      buttonStates[1] := r.buttons[1];
      temperatureValues[0] := r.temperature;
      analogInputValues[0] := r.analog;
    }

    /**
     * One refresh run. Whatever happens the next refresh is scheduled 2000 ms later;
     * a NotFound failure then removes it again and shows the offline dialog.
     */
    method RefreshRun(now: int, client: Result<Client, DsError>, lights: Result<seq<bool>, DsError>,
                      inputs: Result<seq<bool>, DsError>, temperatures: Result<seq<real>, DsError>,
                      analogs: Result<seq<real>, DsError>)
      returns (notice: Option<Notice>)
      requires Valid()
      modifies this`refreshDue, ledStates, buttonStates, temperatureValues, analogInputValues
      ensures var r := Refresh(client, lights, inputs, temperatures, analogs);
        (r.Ok? ==>
           (notice.None? && ledStates[..] == r.value.leds && buttonStates[..] == r.value.buttons
            && temperatureValues[..] == [r.value.temperature] && analogInputValues[..] == [r.value.analog]
            && refreshDue == Some(now + REFRESH_DELAY_MILLIS)))
        && (r.Err? ==>
              (notice == Some(RefreshFailureNotice(r.error))
               && ledStates[..] == old(ledStates[..]) && buttonStates[..] == old(buttonStates[..])
               && temperatureValues[..] == old(temperatureValues[..]) && analogInputValues[..] == old(analogInputValues[..])
               && refreshDue == (if r.error == NotFound then None else Some(now + REFRESH_DELAY_MILLIS))))
    {
      var r := Refresh(client, lights, inputs, temperatures, analogs);
      notice := None;
      if r.Ok? {
        ShowReadings(r.value);
      } else {
        notice := Some(RefreshFailureNotice(r.error));
      }
      refreshDue := Some(now + REFRESH_DELAY_MILLIS);
      if r.Err? && r.error == NotFound {
        refreshDue := None;
      }
    }

    /**
     * `onLedClicked`: ask for the negation of the LED's current state. Once the client is
     * found the update is sent and the LED's state flips without waiting for the answer.
     */
    method OnLedClicked(led: Led, client: Result<Client, DsError>) returns (sent: Option<LightUpdate>, notice: Option<Notice>)
      requires Valid()
      modifies this`refreshDue, ledStates
      ensures var i := InstanceId(led);
        (client.Ok? ==>
           (sent == Some(LightUpdate(i, !old(ledStates[i])))
            && ledStates[..] == Toggled(old(ledStates[..]), i)
            && notice.None? && refreshDue == old(refreshDue)))
        && (client.Err? ==>
              (sent.None? && ledStates[..] == old(ledStates[..])
               && notice == Some(LedFailureNotice(client.error))
               && refreshDue == (if client.error == NotFound then None else old(refreshDue))))
    {
      var instanceId := InstanceId(led);
      var onOff := !ledStates[instanceId];
      if client.Ok? {
        sent := Some(LightUpdate(instanceId, onOff));
        ledStates[instanceId] := !ledStates[instanceId];
        notice := None;
      } else {
        sent := None;
        notice := Some(LedFailureNotice(client.error));
        if client.error == NotFound {
          refreshDue := None;
        }
      }
    }
  }
}
