/**
 * The "connecting" screen of the setup wizard: it waits for the phone to regain an internet
 * connection that is not the board, then polls the Device Server for a client named after
 * the board, and gives up with "taking long" after three minutes.
 */
module Connecting {
  import opened Wrappers
  import opened Constants
  import WifiUtil

  /** The provisioning states. The two MOCK states stand for steps the app cannot observe. */
  datatype BoardState = WIFI_CONNECTING | WIFI_CONNECTED_MOCK | DS_CONNECTING_MOCK | TAKING_LONG | DS_CONNECTED

  /** How long the screen waits before offering to cancel or try again. */
  const CONNECTION_TIMEOUT_MILLIS: int := 3 * SIXTY_SECONDS_MILLIS
  /** The delay between two polls of the Device Server. */
  const POLL_DELAY_MILLIS: int := 5000
  /** Polls are rescheduled only within this window after polling starts. */
  const POLL_WINDOW_MILLIS: int := 60 * 1000

  /**
   * What the screen holds: its state, whether the connectivity receiver is registered,
   * and the due times of the pending timeout and poll, with the end of the poll window.
   */
  datatype Screen = Screen(state: BoardState, registered: bool, timeoutDue: Option<int>,
                           pollDue: Option<int>, pollExpiry: int)

  /**
   * What can happen to the screen. `Timeout` and `Poll` are the pending timers firing;
   * a poll carries the client names listed by the Device Server (None when the request
   * failed) and the board SSID recorded by the wizard.
   */
  datatype Event =
    | ViewCreated
    | Resume(now: int)
    | Pause
    | Connectivity(now: int, internetNotBoard: bool)
    | Timeout
    | Poll(now: int, clients: Option<seq<string>>, boardSsid: Option<string>)
    | CancelClicked
    | TryAgainClicked
    | DoneClicked

  const Initial: Screen := Screen(WIFI_CONNECTING, false, None, None, 0)

  /** A client list names the board when one of its names equals the board SSID; a null SSID matches none. */
  predicate NamesBoard(clients: seq<string>, boardSsid: Option<string>)
  {
    boardSsid.Some? && boardSsid.value in clients
  }

  /** The events that can change the state; the others only register, unregister or clear timers. */
  predicate MovesState(e: Event)
  {
    e.ViewCreated? || e.Connectivity? || e.Timeout? || e.Poll?
  }

  /** A poll whose answer lists the board. */
  predicate FindsBoard(e: Event)
  {
    e.Poll? && e.clients.Some? && NamesBoard(e.clients.value, e.boardSsid)
  }

  /**
   * The screen after one event. Only a poll that finds the board makes it connected, only
   * a pending timeout makes it take long, and DS_CONNECTING_MOCK is never entered.
   */
  function Next(s: Screen, e: Event): (r: Screen)
    ensures !MovesState(e) ==> r.state == s.state
    ensures r.state == DS_CONNECTING_MOCK ==> s.state == DS_CONNECTING_MOCK
    ensures r.state == DS_CONNECTED && s.state != DS_CONNECTED ==> FindsBoard(e) && s.pollDue.Some?
    ensures r.state == TAKING_LONG && s.state != TAKING_LONG ==> e.Timeout? && s.timeoutDue.Some?
  {
    match e
    case ViewCreated => s.(state := WIFI_CONNECTING)
    case Resume(now) => s.(registered := true, timeoutDue := Some(now + CONNECTION_TIMEOUT_MILLIS))
    case Pause => s.(registered := false, timeoutDue := None, pollDue := None)
    case Connectivity(now, internetNotBoard) =>
      if s.registered && internetNotBoard && s.state == WIFI_CONNECTING then
        s.(registered := false, state := WIFI_CONNECTED_MOCK,
           pollDue := Some(now + POLL_DELAY_MILLIS), pollExpiry := now + POLL_WINDOW_MILLIS)
      else s
    case Timeout =>
      if s.timeoutDue.None? then s
      else if s.state == DS_CONNECTING_MOCK || s.state == DS_CONNECTED then s.(timeoutDue := None)
      else s.(timeoutDue := None, state := TAKING_LONG)
    case Poll(now, clients, boardSsid) =>
      if s.pollDue.None? then s
      else if clients.None? then s.(pollDue := None)
      else
        s.(state := if NamesBoard(clients.value, boardSsid) then DS_CONNECTED else s.state,
           pollDue := if now < s.pollExpiry then Some(now + POLL_DELAY_MILLIS) else None)
    case CancelClicked => s.(registered := false)
    case TryAgainClicked => s.(registered := false)
    case DoneClicked => s.(registered := false)
  }

  /**
   * The screen after a sequence of events: without a state-moving event the state stays,
   * and the screen becomes connected only through a poll that found the board.
   */
  function Run(s: Screen, events: seq<Event>): (r: Screen)
    ensures (forall i :: 0 <= i < |events| ==> !MovesState(events[i])) ==> r.state == s.state
    ensures r.state == DS_CONNECTED && s.state != DS_CONNECTED ==>
              exists i :: 0 <= i < |events| && FindsBoard(events[i])
    decreases |events|
  {
    if |events| == 0 then s
    else
      var t := Next(s, events[0]);
      var r := Run(t, events[1..]);
      assert r.state == DS_CONNECTED && s.state != DS_CONNECTED ==>
               exists i :: 0 <= i < |events| && FindsBoard(events[i]) by {
        if r.state == DS_CONNECTED && s.state != DS_CONNECTED {
          if t.state == DS_CONNECTED {
            assert FindsBoard(events[0]);
          } else {
            var j :| 0 <= j < |events[1..]| && FindsBoard(events[1..][j]);
            assert FindsBoard(events[j + 1]);
          }
        }
      }
      r
  }

  class ConnectingScreen {
    var state: BoardState
    var registered: bool
    var timeoutDue: Option<int>
    var pollDue: Option<int>
    var pollExpiry: int

    function Snapshot(): Screen
      reads this
    {
      Screen(state, registered, timeoutDue, pollDue, pollExpiry)
    }

    constructor ()
      ensures Snapshot() == Initial
    {
      state := WIFI_CONNECTING;
      registered := false;
      timeoutDue := None;
      pollDue := None;
      pollExpiry := 0;
    }

    method OnViewCreated()
      modifies this
      ensures Snapshot() == Next(old(Snapshot()), ViewCreated)
    {
      state := WIFI_CONNECTING;
    }

    /**
     * `onResume`: enable the user's network, saved in quotes (a missing SSID is
     * concatenated as "null"), register the receiver and arm the timeout.
     */
    method OnResume(now: int, wifi: WifiUtil.WifiUtil, userSsid: Option<string>, enableAccepts: int -> bool)
      returns (chosen: string, enabled: bool)
      modifies this
      ensures Snapshot() == Next(old(Snapshot()), Resume(now))
      ensures chosen == WifiUtil.Quoted(userSsid.GetOr("null"))
      ensures var k := WifiUtil.FirstWithSsid(wifi.configured, chosen);
        enabled == (k.Some? && enableAccepts(wifi.configured[k.value].networkId))
      ensures unchanged(wifi)
    {
      chosen := WifiUtil.Quoted(userSsid.GetOr("null"));
      enabled := wifi.EnableChosenNetwork(chosen, enableAccepts);
      registered := true;
      timeoutDue := Some(now + CONNECTION_TIMEOUT_MILLIS);
    }

    method OnPause()
      modifies this
      ensures Snapshot() == Next(old(Snapshot()), Pause)
    {
      timeoutDue := None;
      pollDue := None;
      registered := false;
    }

    /** The connectivity broadcast, delivered only while the receiver is registered. */
    method OnConnectivityChange(now: int, internetNotBoard: bool)
      requires registered
      modifies this
      ensures Snapshot() == Next(old(Snapshot()), Connectivity(now, internetNotBoard))
    {
      if internetNotBoard {
        if state == WIFI_CONNECTING {
          registered := false;
          state := WIFI_CONNECTED_MOCK;
          pollExpiry := now + POLL_WINDOW_MILLIS;
          pollDue := Some(now + POLL_DELAY_MILLIS);
        }
      }
    }

    method OnTimeout()
      requires timeoutDue.Some?
      modifies this
      ensures Snapshot() == Next(old(Snapshot()), Timeout)
    {
      timeoutDue := None;
      if state != DS_CONNECTING_MOCK && state != DS_CONNECTED {
        state := TAKING_LONG;
      }
    }

    /** One poll: every client named after the board sets DS_CONNECTED; a failed request ends polling. */
    method OnPoll(now: int, clients: Option<seq<string>>, boardSsid: Option<string>)
      requires pollDue.Some?
      modifies this
      ensures Snapshot() == Next(old(Snapshot()), Poll(now, clients, boardSsid))
    {
      pollDue := None;
      if clients.None? {
        return;
      }
      var items := clients.value;
      var i := 0;
      while i < |items|
        invariant 0 <= i <= |items|
        invariant state == (if NamesBoard(items[..i], boardSsid) then DS_CONNECTED else old(state))
        invariant registered == old(registered) && timeoutDue == old(timeoutDue)
        invariant pollDue.None? && pollExpiry == old(pollExpiry)
      {
        assert items[..i + 1] == items[..i] + [items[i]];
        if boardSsid.Some? && items[i] == boardSsid.value {
          state := DS_CONNECTED;
        }
        i := i + 1;
      }
      assert items[..i] == items;
      if now < pollExpiry {
        pollDue := Some(now + POLL_DELAY_MILLIS);
      }
    }

    method OnCancelClicked()
      modifies this
      ensures Snapshot() == Next(old(Snapshot()), CancelClicked)
    {
      registered := false;
    }

    method OnTryAgainClicked()
      modifies this
      ensures Snapshot() == Next(old(Snapshot()), TryAgainClicked)
    {
      registered := false;
    }

    method OnDoneClicked()
      modifies this
      ensures Snapshot() == Next(old(Snapshot()), DoneClicked)
    {
      registered := false;
    }
  }

  /** DS_CONNECTING_MOCK is never entered: no event assigns it. */
  lemma {:induction false} NeverConnectingMock(s: Screen, events: seq<Event>)
    requires s.state != DS_CONNECTING_MOCK
    ensures Run(s, events).state != DS_CONNECTING_MOCK
    decreases |events|
  {
    if |events| > 0 {
      NeverConnectingMock(Next(s, events[0]), events[1..]);
    }
  }

  /** Once the board is on the Device Server the screen stays connected until its view is created again. */
  lemma {:induction false} ConnectedIsFinal(s: Screen, events: seq<Event>)
    requires s.state == DS_CONNECTED
    requires forall i :: 0 <= i < |events| ==> events[i] != ViewCreated
    ensures Run(s, events).state == DS_CONNECTED
    decreases |events|
  {
    if |events| > 0 {
      ConnectedIsFinal(Next(s, events[0]), events[1..]);
    }
  }

  /** Only the timeout moves the screen into TAKING_LONG, and only from a state short of connected. */
  lemma TakingLongOnlyByTimeout(s: Screen, e: Event)
    requires s.state != TAKING_LONG && Next(s, e).state == TAKING_LONG
    ensures e == Timeout && s.timeoutDue.Some? && s.state in {WIFI_CONNECTING, WIFI_CONNECTED_MOCK}
  {
  }

  /** How many more polls can run: the pending one and those the window still allows. */
  function PollsLeft(s: Screen): nat
  {
    match s.pollDue
    case None => 0
    case Some(d) => 1 + (if d < s.pollExpiry then (s.pollExpiry - d + POLL_DELAY_MILLIS - 1) / POLL_DELAY_MILLIS else 0)
  }

  /** A poll that fires at its due time leaves fewer polls to run. */
  lemma PollShrinksBudget(s: Screen, clients: Option<seq<string>>, boardSsid: Option<string>)
    requires s.pollDue.Some?
    ensures PollsLeft(Next(s, Poll(s.pollDue.value, clients, boardSsid))) < PollsLeft(s)
  {
    var d := s.pollDue.value;
    var x := s.pollExpiry - d - 1;
    if clients.Some? && d < s.pollExpiry && d + POLL_DELAY_MILLIS < s.pollExpiry {
      assert (x + POLL_DELAY_MILLIS) / POLL_DELAY_MILLIS == x / POLL_DELAY_MILLIS + 1;
    }
  }

  /** Polls firing at their due times, each with the Device Server's answer. */
  function RunPolls(s: Screen, answers: seq<Option<seq<string>>>, boardSsid: Option<string>): Screen
    decreases |answers|
  {
    if |answers| == 0 || s.pollDue.None? then s
    else RunPolls(Next(s, Poll(s.pollDue.value, answers[0], boardSsid)), answers[1..], boardSsid)
  }

  /** Polling always ends: after as many polls as the budget allows, nothing is pending. */
  lemma {:induction false} PollingEnds(s: Screen, answers: seq<Option<seq<string>>>, boardSsid: Option<string>)
    requires |answers| >= PollsLeft(s)
    ensures RunPolls(s, answers, boardSsid).pollDue.None?
    decreases |answers|
  {
    if |answers| > 0 && s.pollDue.Some? {
      PollShrinksBudget(s, answers[0], boardSsid);
      PollingEnds(Next(s, Poll(s.pollDue.value, answers[0], boardSsid)), answers[1..], boardSsid);
    }
  }

  /** The connectivity event that starts polling allows twelve polls: at 5, 10, ..., 60 seconds. */
  lemma ConnectivityAllowsTwelvePolls(s: Screen, now: int)
    requires s.registered && s.state == WIFI_CONNECTING
    ensures var t := Next(s, Connectivity(now, true));
      t.state == WIFI_CONNECTED_MOCK && !t.registered && PollsLeft(t) == 12
  {
  }

  /** Rescheduling after a poll does not depend on whether the board was found. */
  lemma RescheduleIgnoresMatch(s: Screen, now: int, clients: seq<string>, boardSsid: Option<string>)
    requires s.pollDue.Some?
    ensures Next(s, Poll(now, Some(clients), boardSsid)).pollDue == Next(s, Poll(now, Some(clients), None)).pollDue
    ensures NamesBoard(clients, boardSsid) ==> Next(s, Poll(now, Some(clients), boardSsid)).state == DS_CONNECTED
  {
  }
}
