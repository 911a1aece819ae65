/** The RRC helper of rrc.py: a state of its own, plus two procedures that delegate
    to the UE and the gNB. */
module Rrc {
  import opened Results
  import opened Entities

  const RrcIdle: string := "RRC_IDLE"
  const RrcConnected: string := "RRC_CONNECTED"

  class RrcHandler {
    var state: string

    /** `RRC()`: starts idle. */
    constructor()
      ensures state == "RRC_IDLE"
    {
      state := RrcIdle;
    }

    /** `RRC.rrc_connection_request`: returns exactly what the UE's own request returns,
        with the UE's state change; the handler's state is untouched. */
    method RrcConnectionRequest(ue: UE) returns (r: Result<RrcRequest>)
      modifies ue`state
      ensures old(ue.selectedCell).None? ==> r == Failure(NoCellSelected) && ue.state == old(ue.state)
      ensures old(ue.selectedCell).Some? ==>
                r == Success(RequestFor(ue.selectedCell.value)) && ue.state == "RRC Connection Request Sent"
    {
      r := ue.RrcConnectionRequest();
    }

    /** `RRC.rrc_connection_setup`: returns exactly the gNB's setup payload; the only
        change is the gNB's move to "RRC Connection Setup Sent". */
    method RrcConnectionSetup(gnb: Gnb, ue: UE) returns (r: Result<RrcSetup>)
      modifies gnb`state
      ensures ue.selectedCell.None? ==> r == Failure(NoCellSelected) && gnb.state == old(gnb.state)
      ensures ue.selectedCell.Some? ==>
                r == Success(SetupFor(ue.selectedCell.value)) && gnb.state == "RRC Connection Setup Sent"
      ensures unchanged(ue)
    {
      r := gnb.ProcessRrcConnectionRequest(ue);
    }

    /** `RRC.rrc_connection_setup_complete`: moves to "RRC_CONNECTED" from any state and
        returns that state; the UE passed in is not touched. */
    method RrcConnectionSetupComplete(ue: UE) returns (s: string)
      modifies this`state
      ensures state == "RRC_CONNECTED" && s == state
      ensures unchanged(ue)
    {
      state := RrcConnected;
      s := state;
    }
  }
}
