/** The UE and the gNB of entities.py: objects whose state fields change in place. */
module Entities {
  import opened Results
  import opened InitialAccess
  import opened CellSelection
  import opened CoreNetwork

  // UE connection states
  const UeIdle: string := "Idle"
  const UeRequestSent: string := "RRC Connection Request Sent"
  const UeConnected: string := "RRC Connected"

  // UE registration states; the initial one is spelled as in the source
  const RmDeregistered: string := "RM-DEGISTERED"
  const RmRegistered: string := "RM-REGISTERED"

  // gNB states
  const GnbIdle: string := "Idle"
  const GnbSetupSent: string := "RRC Connection Setup Sent"

  const NetworkConfiguration: string := "Configured for high-speed data"
  const SetupCompleteReply: string := "RRC Connection Setup Complete"
  const PduEstablished: string := "PDU Session Established"
  const PduFailed: string := "PDU Session Establishment Failed"

  /** The payload of an RRC connection request. */
  datatype RrcRequest = RrcRequest(plmnId: string, cellId: int, signalStrength: int, frequency: int)

  /** The payload of an RRC connection setup. */
  datatype RrcSetup = RrcSetup(plmnId: string, cellId: int, signalStrength: int, frequency: int,
                               networkConfiguration: string)

  /** The request a UE builds from the cell it camps on. */
  function RequestFor(c: Cell): RrcRequest {
    RrcRequest(c.plmnId, c.cellId, c.signalStrength, c.frequency)
  }

  /** The setup a gNB answers with for a UE camped on `c`. */
  function SetupFor(c: Cell): RrcSetup {
    RrcSetup(c.plmnId, c.cellId, c.signalStrength, c.frequency, NetworkConfiguration)
  }

  /** What a cell selection over `cells` yields, according to the reference scan. */
  function Selection(cells: seq<Cell>, supported: seq<string>): Option<Cell> {
    match BestIndex(cells, supported, |cells|)
    case None => None
    case Some(k) => Some(cells[k])
  }

  /** The terminal. */
  class UE {
    const supportedPlmnIds: seq<string>
    const identity: string
    var state: string
    var selectedCell: Option<Cell>
    var rmState: string

    /** `UE(supported_plmn_ids, identity)`: idle, no cell, not registered. */
    constructor(supportedPlmnIds: seq<string>, identity: string)
      ensures this.supportedPlmnIds == supportedPlmnIds && this.identity == identity
      ensures state == "Idle" && selectedCell == None && rmState == "RM-DEGISTERED"
    {
      this.supportedPlmnIds := supportedPlmnIds;
      this.identity := identity;
      state := UeIdle;
      selectedCell := None;
      rmState := RmDeregistered;
    }

    /** `UE.select_cell`: returns nothing and keeps the old selection when no cell has a
        supported PLMN; otherwise selects and returns the first strongest supported cell.
        The broadcast draws never influence the outcome. */
    method SelectCell(cells: seq<Cell>, source: nat -> BroadcastDraw) returns (r: Option<Cell>)
      modifies this`selectedCell
      ensures r.None? <==> NoneSupportedIn(cells, supportedPlmnIds, |cells|)
      ensures r.Some? ==> exists k :: IsBestIn(cells, supportedPlmnIds, |cells|, k) && r.value == cells[k]
      ensures r == Selection(cells, supportedPlmnIds)
      ensures selectedCell == if r.Some? then r else old(selectedCell)
    {
      var valid, origin := CollectCandidates(cells, supportedPlmnIds, source);
      BestIndexCorrect(cells, supportedPlmnIds, |cells|);
      if |valid| == 0 {
        forall j | 0 <= j < |cells| ensures !Supported(cells[j], supportedPlmnIds) {
          assert j !in origin;
        }
        return None;
      }
      var p := FirstStrongest(valid);
      StrongestCandidateIsBest(cells, supportedPlmnIds, valid, origin, p);
      SelectionCharacterized(cells, supportedPlmnIds, origin[p]);
      selectedCell := Some(valid[p].cell);
      r := selectedCell;
    }

    /** `UE.rrc_connection_request`: sends the selected cell's PLMN, id, strength and
        frequency and moves to "RRC Connection Request Sent". Without a selected cell the
        source fails before changing anything. */
    method RrcConnectionRequest() returns (r: Result<RrcRequest>)
      modifies this`state
      ensures old(selectedCell).None? ==> r == Failure(NoCellSelected) && state == old(state)
      ensures old(selectedCell).Some? ==>
                var c := selectedCell.value;
                && r.Success?
                && r.value.plmnId == c.plmnId && r.value.cellId == c.cellId
                && r.value.signalStrength == c.signalStrength && r.value.frequency == c.frequency
                && state == "RRC Connection Request Sent"
    {
      if selectedCell.None? {
        return Failure(NoCellSelected);
      }
      r := Success(RequestFor(selectedCell.value));
      state := UeRequestSent;
    }

    /** `UE.rrc_connection_setup_complete`: moves to "RRC Connected" from any state. */
    method RrcConnectionSetupComplete() returns (reply: string)
      modifies this`state
      ensures state == "RRC Connected"
      ensures reply == "RRC Connection Setup Complete"
    {
      state := UeConnected;
      reply := SetupCompleteReply;
    }

    /** `UE.register`: when the AMF accepts the identity, the UE is "RRC Connected" and
        "RM-REGISTERED"; otherwise both states stay as they were. */
    method Register(amf: Amf)
      modifies this`state, this`rmState
      ensures identity in amf.udm.subscriberData ==> state == "RRC Connected" && rmState == "RM-REGISTERED"
      ensures identity !in amf.udm.subscriberData ==> state == old(state) && rmState == old(rmState)
    {
      if amf.ReceiveRegistrationRequest(identity).accepted {
        state := UeConnected;
        rmState := RmRegistered;
      }
    }

    /** `UE.pdu_session_establishment_request`: asks the gNB for a PDU session. The source
        reads the selected cell's id first, so without a cell it fails. */
    method PduSessionEstablishmentRequest(gnb: Gnb) returns (r: Result<string>)
      ensures selectedCell.None? ==> r == Failure(NoCellSelected)
      ensures selectedCell.Some? ==>
                r == Success(if state == "RRC Connected" then "PDU Session Established"
                             else "PDU Session Establishment Failed")
      ensures r == Success("PDU Session Established") <==> selectedCell.Some? && state == "RRC Connected"
    {
      if selectedCell.None? {
        return Failure(NoCellSelected);
      }
      r := gnb.ProcessPduSessionEstablishment(this);
    }
  }

  /** The base station. */
  class Gnb {
    var cells: seq<Cell>
    var state: string

    /** `gNB()`: no cells, idle. */
    constructor()
      ensures cells == [] && state == "Idle"
    {
      cells := [];
      state := GnbIdle;
    }

    /** `gNB.add_cell`: appends the cell; the state is untouched. */
    method AddCell(cell: Cell)
      modifies this`cells
      ensures cells == old(cells) + [cell]
    {
      cells := cells + [cell];
    }

    /** `gNB.process_rrc_connection_request`: answers with the UE's selected cell's PLMN, id,
        strength and frequency plus the fixed network configuration, and moves to
        "RRC Connection Setup Sent". The UE is not changed. Without a selected cell the
        source fails before changing anything. */
    method ProcessRrcConnectionRequest(ue: UE) returns (r: Result<RrcSetup>)
      modifies this`state
      ensures ue.selectedCell.None? ==> r == Failure(NoCellSelected) && state == old(state)
      ensures ue.selectedCell.Some? ==>
                var c := ue.selectedCell.value;
                && r.Success?
                && r.value.plmnId == c.plmnId && r.value.cellId == c.cellId
                && r.value.signalStrength == c.signalStrength && r.value.frequency == c.frequency
                && r.value.networkConfiguration == "Configured for high-speed data"
                && state == "RRC Connection Setup Sent"
      ensures unchanged(ue)
    {
      if ue.selectedCell.None? {
        return Failure(NoCellSelected);
      }
      r := Success(SetupFor(ue.selectedCell.value));
      state := GnbSetupSent;
    }

    /** `gNB.rrc_connection_setup_complete`: completes the UE's setup, so the UE is
        "RRC Connected". The source reads the selected cell's frequency first, so without a
        cell it fails and the UE is unchanged. */
    method RrcConnectionSetupComplete(ue: UE) returns (r: Outcome)
      modifies ue`state
      ensures old(ue.selectedCell).None? ==> r == Fail(NoCellSelected) && ue.state == old(ue.state)
      ensures old(ue.selectedCell).Some? ==> r == Pass && ue.state == "RRC Connected"
    {
      if ue.selectedCell.None? {
        return Fail(NoCellSelected);
      }
      var _ := ue.RrcConnectionSetupComplete();
      r := Pass;
    }

    /** `gNB.process_pdu_session_establishment`: grants a session exactly when the UE is
        "RRC Connected"; the registration state is not consulted. The source reads the
        selected cell's id first, so without a cell it fails. */
    method ProcessPduSessionEstablishment(ue: UE) returns (r: Result<string>)
      ensures ue.selectedCell.None? ==> r == Failure(NoCellSelected)
      ensures ue.selectedCell.Some? ==>
                r == Success(if ue.state == "RRC Connected" then "PDU Session Established"
                             else "PDU Session Establishment Failed")
      ensures r == Success("PDU Session Established") <==> ue.selectedCell.Some? && ue.state == "RRC Connected"
    {
      if ue.selectedCell.None? {
        return Failure(NoCellSelected);
      }
      if ue.state == UeConnected {
        r := Success(PduEstablished);
      } else {
        r := Success(PduFailed);
      }
    }
  }
}
