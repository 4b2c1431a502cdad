/**
 * The setup wizard's context: six nullable strings shared by the wizard's screens.
 * There is no reset, so a value stays until it is overwritten, across setup runs.
 */
module SetupGuide {
  import opened Wrappers

  /** The six values, as one record. */
  datatype Context = Context(ssid: Option<string>, boardSsid: Option<string>, deviceName: Option<string>,
                             pskIdentity: Option<string>, pskSecret: Option<string>, bootstrapUrl: Option<string>)

  const Empty: Context := Context(None, None, None, None, None, None)

  /** The shared context. Each getter reads its field; each setter writes it and nothing else. */
  class SetupGuideInfo {
    /** The network the phone was on when the user picked it (the "last opened logged-in app SSID"). */
    var ssid: Option<string>
    var boardSsid: Option<string>
    var deviceName: Option<string>
    var pskIdentity: Option<string>
    var pskSecret: Option<string>
    var bootstrapUrl: Option<string>

    function Snapshot(): Context
      reads this
    {
      Context(ssid, boardSsid, deviceName, pskIdentity, pskSecret, bootstrapUrl)
    }

    /** All six fields start null. */
    constructor ()
      ensures Snapshot() == Empty
    {
      ssid := None;
      boardSsid := None;
      deviceName := None;
      pskIdentity := None;
      pskSecret := None;
      bootstrapUrl := None;
    }

    method SetSsid(v: Option<string>)
      modifies this
      ensures Snapshot() == old(Snapshot()).(ssid := v)
    {
      ssid := v;
    }

    method SetBoardSsid(v: Option<string>)
      modifies this
      ensures Snapshot() == old(Snapshot()).(boardSsid := v)
    {
      boardSsid := v;
    }

    method SetDeviceName(v: Option<string>)
      modifies this
      ensures Snapshot() == old(Snapshot()).(deviceName := v)
    {
      deviceName := v;
    }

    method SetPskIdentity(v: Option<string>)
      modifies this
      ensures Snapshot() == old(Snapshot()).(pskIdentity := v)
    {
      pskIdentity := v;
    }

    method SetPskSecret(v: Option<string>)
      modifies this
      ensures Snapshot() == old(Snapshot()).(pskSecret := v)
    {
      pskSecret := v;
    }

    method SetBootstrapUrl(v: Option<string>)
      modifies this
      ensures Snapshot() == old(Snapshot()).(bootstrapUrl := v)
    {
      bootstrapUrl := v;
    }
  }

  /** A write to one field: which field, and the value. */
  datatype Write =
    | WriteSsid(v: Option<string>)
    | WriteBoardSsid(v: Option<string>)
    | WriteDeviceName(v: Option<string>)
    | WritePskIdentity(v: Option<string>)
    | WritePskSecret(v: Option<string>)
    | WriteBootstrapUrl(v: Option<string>)

  /** The context after one write, as the setters make it. */
  function Apply(c: Context, w: Write): Context
  {
    match w
    case WriteSsid(v) => c.(ssid := v)
    case WriteBoardSsid(v) => c.(boardSsid := v)
    case WriteDeviceName(v) => c.(deviceName := v)
    case WritePskIdentity(v) => c.(pskIdentity := v)
    case WritePskSecret(v) => c.(pskSecret := v)
    case WriteBootstrapUrl(v) => c.(bootstrapUrl := v)
  }

  /** The context after a series of writes. */
  function ApplyAll(c: Context, ws: seq<Write>): Context
    decreases |ws|
  {
    if |ws| == 0 then c else ApplyAll(Apply(c, ws[0]), ws[1..])
  }

  /** Which writes set the board SSID. */
  predicate WritesBoardSsid(w: Write)
  {
    w.WriteBoardSsid?
  }

  /**
   * Each getter returns the value of the latest write to its field: after a write of the
   * board SSID, writes to the other fields leave it as it was.
   */
  lemma {:induction false} LatestBoardSsidWins(c: Context, v: Option<string>, later: seq<Write>)
    requires forall k :: 0 <= k < |later| ==> !WritesBoardSsid(later[k])
    ensures ApplyAll(c, [WriteBoardSsid(v)] + later).boardSsid == v
  {
    assert ([WriteBoardSsid(v)] + later)[1..] == later;
    OtherWritesKeepBoardSsid(Apply(c, WriteBoardSsid(v)), later);
  }

  /** Writes to the other five fields never change the board SSID, however many there are. */
  lemma {:induction false} OtherWritesKeepBoardSsid(c: Context, ws: seq<Write>)
    requires forall k :: 0 <= k < |ws| ==> !WritesBoardSsid(ws[k])
    ensures ApplyAll(c, ws).boardSsid == c.boardSsid
    decreases |ws|
  {
    if |ws| > 0 {
      OtherWritesKeepBoardSsid(Apply(c, ws[0]), ws[1..]);
    }
  }
}
