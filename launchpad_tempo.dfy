/** The Launchpad tempo helper: watches the Launchpad's DAW port for
    layout changes and uses two of them to turn the settings button into a
    tempo-page toggle. */
module LaunchpadTempos {
  import opened Prelude

  /** Layouts as (mode, page) pairs. */
  const PROGRAMMER_MODE: (int, int) := (17, 0)
  const TEMPO_MODE: (int, int) := (15, 0)
  const SETTINGS_MODE: (int, int) := (18, 0)

  /** `get_mode_message`: the system-exclusive message that selects a
      layout. */
  function GetModeMessage(mode: (int, int)): (message: seq<int>)
    ensures |message| == 11
    ensures message[0] == 0xF0 && message[10] == 0xF7
    ensures message[1..4] == [0x00, 0x20, 0x29]
  {
    [240, 0, 32, 41, 2, 14, 0, mode.0, mode.1, 0, 247]
  }

  /** `get_mode`: the layout a layout-change message reports, if it is
      one. */
  function GetMode(message: seq<int>): (mode: Option<(int, int)>)
    ensures mode.Some? ==> |message| == 11
  {
    if |message| == 11 && message[..7] == [240, 0, 32, 41, 2, 14, 0]
       && message[9] == 0 && message[10] == 247
    then Some((message[7], message[8]))
    else None
  }

  /** Reading back a layout message gives its layout. */
  lemma GetModeOfMessage(mode: (int, int))
    ensures GetMode(GetModeMessage(mode)) == Some(mode)
  {
    assert GetModeMessage(mode)[..7] == [240, 0, 32, 41, 2, 14, 0];
  }

  /** Every message that reports a layout is that layout's message. */
  lemma GetModeMessageOfMode(message: seq<int>)
    requires GetMode(message).Some?
    ensures GetModeMessage(GetMode(message).value) == message
  {
    var expected := GetModeMessage(GetMode(message).value);
    assert forall i :: 0 <= i < 7 ==> message[i] == message[..7][i];
    assert forall i :: 0 <= i < 11 ==> expected[i] == message[i];
  }

  /** The callback on the DAW input, with the layout it last saw. */
  class LaunchpadTempo {
    var lastMode: Option<(int, int)>
    /** Every message sent back to the DAW port, in order. */
    ghost var sent: seq<seq<int>>

    constructor ()
      ensures lastMode == None && sent == []
    {
      lastMode := None;
      sent := [];
    }

    /** A second programmer-layout report in a row means the settings
        button was pressed in programmer layout: switch to the tempo page.
        Leaving the settings layout switches back to programmer layout.
        Any message, layout change or not, becomes the last one seen. */
    method OnMessage(message: seq<int>)
      modifies this
      ensures lastMode == GetMode(message)
      ensures sent == old(sent)
        + (if GetMode(message) == Some(PROGRAMMER_MODE) && old(lastMode) == Some(PROGRAMMER_MODE)
           then [GetModeMessage(TEMPO_MODE)] else [])
        + (if GetMode(message).Some? && old(lastMode) == Some(SETTINGS_MODE)
           then [GetModeMessage(PROGRAMMER_MODE)] else [])
    {
      var newMode := GetMode(message);
      if newMode.Some? {
        if newMode == Some(PROGRAMMER_MODE) && lastMode == Some(PROGRAMMER_MODE) {
          sent := sent + [GetModeMessage(TEMPO_MODE)];
        }
        if lastMode == Some(SETTINGS_MODE) {
          sent := sent + [GetModeMessage(PROGRAMMER_MODE)];
        }
      }
      lastMode := newMode;
    }
  }
}
