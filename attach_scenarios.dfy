/** The attach procedure driven end to end on the network that main.py sets up. */
module AttachScenarios {
  import opened Results
  import opened InitialAccess
  import opened CellSelection
  import opened CoreNetwork
  import opened Entities
  import opened Rrc

  const HomePlmns: seq<string> := ["310260", "40006"]
  const KnownImsi: string := "imsi-001010123456789"

  /** The three cells of main.py, in the order they are added to the gNB. */
  const MainCells: seq<Cell> := [
    Cell(1, 75, "310260", 2100, "Macro"),
    Cell(2, 85, "310260", 2600, "Small"),
    Cell(3, 50, "310560", 1800, "Macro")
  ]

  /** Among main.py's cells the UE selects cell 2, the strongest of the two home-PLMN cells. */
  lemma MainCellsSelectCellTwo()
    ensures Selection(MainCells, HomePlmns) == Some(Cell(2, 85, "310260", 2600, "Small"))
  {
  }

  /** A stronger cell of a foreign PLMN (strength 99, PLMN "999999") is passed over. */
  lemma ForeignCellPassedOver()
    ensures Selection(MainCells + [Cell(4, 99, "999999", 3500, "Macro")], HomePlmns) == Some(MainCells[1])
  {
    MainCellsSelectCellTwo();
    UnsupportedCellIgnored(MainCells, Cell(4, 99, "999999", 3500, "Macro"), HomePlmns);
  }

  /** Builds main.py's gNB and a UE that supports the home PLMNs. */
  method SetUp(identity: string) returns (gnb: Gnb, ue: UE)
    ensures fresh(gnb) && fresh(ue)
    ensures gnb.cells == MainCells && gnb.state == "Idle"
    ensures ue.supportedPlmnIds == HomePlmns && ue.identity == identity
    ensures ue.state == "Idle" && ue.selectedCell == None && ue.rmState == "RM-DEGISTERED"
  {
    gnb := new Gnb();
    ue := new UE(HomePlmns, identity);
    gnb.AddCell(MainCells[0]);
    gnb.AddCell(MainCells[1]);
    gnb.AddCell(MainCells[2]);
  }

  /** main.py's cell selection: on the gNB's three cells the UE picks cell 2. */
  method SelectOnMainCells(identity: string, source: nat -> BroadcastDraw) returns (gnb: Gnb, ue: UE)
    ensures fresh(gnb) && fresh(ue)
    ensures ue.identity == identity && ue.selectedCell == Some(MainCells[1])
    ensures ue.state == "Idle" && ue.rmState == "RM-DEGISTERED" && gnb.state == "Idle"
  {
    gnb, ue := SetUp(identity);
    var selected := ue.SelectCell(gnb.cells, source);
    MainCellsSelectCellTwo();
  }

  /** main.py up to registration: the RRC request, the gNB's setup and the handler's setup
      completion; when the handler reports "RRC_CONNECTED", main.py itself writes
      "RRC Connected" into the UE. The UE is then on cell 2, still deregistered. */
  method Connect(identity: string, source: nat -> BroadcastDraw)
    returns (gnb: Gnb, ue: UE, handler: RrcHandler, setup: Result<RrcSetup>)
    ensures fresh(gnb) && fresh(ue) && fresh(handler)
    ensures ue.identity == identity && ue.selectedCell == Some(MainCells[1])
    ensures ue.state == "RRC Connected" && ue.rmState == "RM-DEGISTERED"
    ensures gnb.state == "RRC Connection Setup Sent" && handler.state == "RRC_CONNECTED"
    ensures setup == Success(SetupFor(MainCells[1]))
  {
    gnb, ue := SelectOnMainCells(identity, source);
    handler := new RrcHandler();
    var request := handler.RrcConnectionRequest(ue);
    setup := handler.RrcConnectionSetup(gnb, ue);
    var rrcState := handler.RrcConnectionSetupComplete(ue);
    if rrcState == RrcConnected {
      ue.state := UeConnected;
    }
  }

  /** The happy path: cell 2 is selected, the RRC handshake connects the UE, a known
      subscriber registers, and the PDU session is established, for any broadcast draws. */
  method HappyPath(source: nat -> BroadcastDraw)
    returns (selected: Option<Cell>, setup: Result<RrcSetup>, rmState: string, pdu: Result<string>)
    ensures selected == Some(Cell(2, 85, "310260", 2600, "Small"))
    ensures setup == Success(RrcSetup("310260", 2, 85, 2600, "Configured for high-speed data"))
    ensures rmState == "RM-REGISTERED"
    ensures pdu == Success("PDU Session Established")
  {
    var gnb, ue, handler;
    gnb, ue, handler, setup := Connect(KnownImsi, source);
    selected := ue.selectedCell;
    assert KnownImsi in DefaultAmf.udm.subscriberData;
    ue.Register(DefaultAmf);
    rmState := ue.rmState;
    pdu := ue.PduSessionEstablishmentRequest(gnb);
  }

  /** When no cell carries a supported PLMN, nothing is selected and the RRC request
      that follows fails without moving the UE out of "Idle". */
  method NoSuitableCell(source: nat -> BroadcastDraw)
    returns (selected: Option<Cell>, request: Result<RrcRequest>, ueState: string)
    ensures selected == None
    ensures request == Failure(NoCellSelected)
    ensures ueState == "Idle"
  {
    var ue := new UE(["999999"], KnownImsi);
    selected := ue.SelectCell(MainCells, source);
    assert Selection(MainCells, ["999999"]) == None by {
      assert BestIndex(MainCells, ["999999"], 3) == None;
    }
    var handler := new RrcHandler();
    request := handler.RrcConnectionRequest(ue);
    ueState := ue.state;
  }

  /** An unknown subscriber ("imsi-999") stays "RM-DEGISTERED"; the gNB still grants it a
      PDU session, because it gates on the radio connection state alone. */
  method UnknownSubscriber(source: nat -> BroadcastDraw)
    returns (rmState: string, pdu: Result<string>)
    ensures rmState == "RM-DEGISTERED"
    ensures pdu == Success("PDU Session Established")
  {
    var gnb, ue, handler, setup := Connect("imsi-999", source);
    assert "imsi-999" !in DefaultAmf.udm.subscriberData;
    ue.Register(DefaultAmf);
    rmState := ue.rmState;
    pdu := ue.PduSessionEstablishmentRequest(gnb);
  }

  /** A PDU session requested right after the RRC request, before the setup completes,
      is refused: the UE is only "RRC Connection Request Sent". */
  method PduBeforeSetupComplete(source: nat -> BroadcastDraw) returns (pdu: Result<string>)
    ensures pdu == Success("PDU Session Establishment Failed")
  {
    var gnb, ue := SelectOnMainCells(KnownImsi, source);
    var request := ue.RrcConnectionRequest();
    pdu := ue.PduSessionEstablishmentRequest(gnb);
  }
}
