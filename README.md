# Verified model of a 5G attach procedure

This project models the control-plane attach procedure of a small 5G simulator. It covers:

- cells broadcasting their MIB and SIB;
- a UE choosing a cell;
- the RRC handshake between the UE and the gNB;
- registration through AMF, AUSF and UDM;
- PDU-session establishment at the gNB.

Modules, each following one part of the program:

- `Results`: the option and result types. A selected cell that is missing crashes the source; here it is the typed error `NoCellSelected`. The source fails before it changes any state, so each failing operation leaves the state as it was.
- `InitialAccess` (initial_access.py): `Cell` and its `send_mib` / `send_sib`. A cell is a value. The datatype constructor plays the part of `Cell.__init__` and stores its five arguments unchanged. Neither broadcast can change the cell. Randomness is injected as raw rolls: `Choice` plays `random.choice` and `RandInt` plays `random.randint`. The `...Covers` lemmas prove that the draws reach every value in the source's ranges and nothing else.
- `CellSelection` (the algorithm inside `UE.select_cell`): `BestIndex` is a reference scan with Python `max` semantics (the first maximum wins). Lemmas characterise its result both ways. Two loop methods follow the source's two steps: collecting the valid cells, then taking `max`. A ghost list of positions (`SupportedPositions`) ties the filtered list back to positions in the input.
- `CoreNetwork` (AMF, AUSF, UDM in entities.py): pure values. The AMF's calls to the UDM are returned as an ordered trace. `DefaultUdm` stands for `UDM.__init__` (entities.py:44-46) and `DefaultAmf` for `AMF.__init__` (entities.py:6-8).
- `Entities` (UE, gNB in entities.py): classes whose methods change the `state`, `selected_cell`, `rm_state` and `cells` fields. States are the source's own strings, including the initial spelling `"RM-DEGISTERED"`.
- `Rrc` (rrc.py): the RRC helper class. Its `state` field is its own; its other two methods delegate to the UE and the gNB.
- `AttachScenarios`: main.py's network of three cells, driven end to end for any broadcast draws.

Behaviour of the program worth knowing:

- The gNB grants a PDU session when the UE's connection state is `"RRC Connected"`. It never checks the registration state. An unregistered UE whose RRC setup completed therefore gets a session (`AttachScenarios.UnknownSubscriber`).
- `UE.rrc_connection_setup_complete` and `RRC.rrc_connection_setup_complete` move to the connected state from any state. There is no invalid-transition error.
- A `Cell` has no barred flag. Only the SIB carries a randomly drawn `cell_barred` value.

## Model

| member | source | states |
|---|---|---|
| InitialAccess.Choice | initial_access.py:17 | the drawn value is always one of the options |
| InitialAccess.ChoiceCovers | initial_access.py:17 | every option is drawn by some roll |
| InitialAccess.RandInt | initial_access.py:18 | the drawn integer lies in the closed range `[lo, hi]` |
| InitialAccess.RandIntCovers | initial_access.py:27 | every integer of `[lo, hi]` is drawn by some roll |
| InitialAccess.SendMib | initial_access.py:12-21 | the MIB echoes the cell's id and PLMN; bandwidth is in {10,20,40,80,100}; scheduling info is in [1,10] |
| InitialAccess.SendMibCovers | initial_access.py:14-19 | every MIB with those echoed fields and in-range random fields is broadcast for some draw |
| InitialAccess.SendSib | initial_access.py:23-33 | the SIB echoes the PLMN and cell type; tracking-area code is in [1,1000]; access classes are exactly 1..10 |
| InitialAccess.SendSibCovers | initial_access.py:25-31 | every SIB with any in-range tracking-area code and either barred value is broadcast for some draw |
| CellSelection.BestIndexCorrect | entities.py:87-98 | the scan finds no cell iff no cell's PLMN is supported; otherwise it finds a supported cell that is at least as strong as every supported cell and strictly stronger than every earlier supported cell |
| CellSelection.BestIsUnique | entities.py:98 | with the first-wins tie-break at most one cell is the best |
| CellSelection.SelectionCharacterized | entities.py:93-98 | the scan returns `k` iff cell `k` is the first strongest supported cell |
| CellSelection.BestIndexPrefix | entities.py:87-91 | cells that come later are irrelevant to the scan over earlier cells |
| CellSelection.UnsupportedCellIgnored | entities.py:90-91 | appending a cell of an unsupported PLMN never changes the selection, whatever its signal strength |
| CellSelection.SupportedPositionsSpec | entities.py:87-91 | the kept positions are increasing input positions of supported cells, and every supported cell's position is among them |
| CellSelection.CandidatesCoverSupported | entities.py:90-91 | every candidate is a supported input cell and every supported input cell is a candidate |
| CellSelection.CollectCandidates | entities.py:85-91 | `valid_cells` holds exactly the supported cells, in input order, each with the MIB and SIB it broadcast |
| CellSelection.FirstStrongest | entities.py:98 | Python `max` by signal strength: a maximal candidate with every earlier candidate strictly weaker |
| CellSelection.StrongestCandidateIsBest | entities.py:98 | the candidate chosen by `max` is the first strongest supported cell of the input |
| CoreNetwork.Udm.Authenticate | entities.py:48-54 | exact membership of the identity in the subscriber set; no partial match |
| CoreNetwork.Ausf.Authenticate | entities.py:37-41 | authenticated iff the identity is in the UDM's subscriber set; the algorithm is "5G-AKA" |
| CoreNetwork.Amf.Authenticate | entities.py:15-35 | accepted iff the identity is a subscriber; on success exactly the calls `register_ue` then `get_subscription_data`, and none on failure |
| CoreNetwork.Amf.ReceiveRegistrationRequest | entities.py:10-13 | accepted exactly when the AUSF reports authentication; then exactly `register_ue` followed by `get_subscription_data` for this identity, otherwise no UDM call |
| CoreNetwork.DefaultAmfAccepts | entities.py:46 | with the provisioned UDM, registration succeeds exactly for "imsi-001010123456789" and "imsi-001310123456789" |
| CoreNetwork.UnknownIdentityRejected | entities.py:51-54 | "imsi-999" is rejected and no UDM call is made |
| Entities.UE.constructor | entities.py:65-71 | a new UE is "Idle", has no selected cell and is "RM-DEGISTERED" |
| Entities.UE.SelectCell | entities.py:83-101 | returns None iff no cell is supported, and then keeps the old selection; otherwise returns and records the input cell that is the first strongest supported one |
| Entities.UE.RrcConnectionRequest | entities.py:103-113 | the request carries the selected cell's PLMN, id, strength and frequency; the state becomes "RRC Connection Request Sent"; without a cell it is an error with the state unchanged |
| Entities.UE.RrcConnectionSetupComplete | entities.py:115-119 | the state becomes "RRC Connected" from any state; replies "RRC Connection Setup Complete" |
| Entities.UE.Register | entities.py:121-129 | a subscriber becomes "RRC Connected" and "RM-REGISTERED"; any other identity leaves both states unchanged |
| Entities.UE.PduSessionEstablishmentRequest | entities.py:73-76 | the gNB's answer: established iff the UE has a cell and is "RRC Connected" |
| Entities.Gnb.constructor | entities.py:133-135 | a new gNB has no cells and is "Idle" |
| Entities.Gnb.AddCell | entities.py:137-139 | the cell is appended to `cells`; nothing else changes |
| Entities.Gnb.ProcessRrcConnectionRequest | entities.py:141-152 | the setup carries the UE cell's four fields and "Configured for high-speed data"; the gNB becomes "RRC Connection Setup Sent"; the UE is unchanged; without a cell it is an error |
| Entities.Gnb.RrcConnectionSetupComplete | entities.py:154-157 | the UE becomes "RRC Connected"; without a cell it is an error and the UE is unchanged |
| Entities.Gnb.ProcessPduSessionEstablishment | entities.py:160-169 | "PDU Session Established" iff the UE is "RRC Connected", otherwise "PDU Session Establishment Failed"; without a cell it is an error |
| Rrc.RrcHandler.constructor | rrc.py:2-3 | the handler starts in "RRC_IDLE" |
| Rrc.RrcHandler.RrcConnectionRequest | rrc.py:5-10 | returns exactly the UE's request payload, with the UE's move to "RRC Connection Request Sent" |
| Rrc.RrcHandler.RrcConnectionSetup | rrc.py:12-18 | returns exactly the gNB's setup payload; the only change is the gNB's move to "RRC Connection Setup Sent" |
| Rrc.RrcHandler.RrcConnectionSetupComplete | rrc.py:20-24 | the state becomes "RRC_CONNECTED" from any state and is returned; the UE is untouched |
| AttachScenarios.MainCellsSelectCellTwo | main.py:13-18 | with supported PLMNs ["310260","40006"] and main.py's three cells, cell 2 (strength 85) is selected |
| AttachScenarios.ForeignCellPassedOver | entities.py:90 | an extra cell with strength 99 and PLMN "999999" does not displace cell 2 |
| AttachScenarios.SetUp | main.py:7-18 | the gNB holds main.py's three cells in order; the UE starts idle, unselected and deregistered |
| AttachScenarios.SelectOnMainCells | main.py:24-27 | on main.py's cells the UE selects cell 2 and is still idle and deregistered |
| AttachScenarios.Connect | main.py:33-45 | after the RRC request, setup and the handler's completion, main.py's own write makes the UE "RRC Connected" on cell 2; the gNB is "RRC Connection Setup Sent", the handler is "RRC_CONNECTED" |
| AttachScenarios.HappyPath | main.py:24-56 | for any broadcast draws: cell 2 is selected, the setup echoes it, a known subscriber is registered and the PDU session is established |
| AttachScenarios.NoSuitableCell | entities.py:93-95 | with no supported cell nothing is selected and the later RRC request fails, leaving the UE "Idle" |
| AttachScenarios.UnknownSubscriber | entities.py:164-166 | "imsi-999" stays "RM-DEGISTERED" yet obtains a PDU session once RRC-connected |
| AttachScenarios.PduBeforeSetupComplete | entities.py:167-169 | a PDU session requested while "RRC Connection Request Sent" is refused |

## Left out

- Console output, including the logged-only security-mode, PEI and 5G-EIR steps of `AMF.authenticate`: it has no effect on state.
- The bodies of `UDM.register_ue` and `UDM.get_subscription_data`: they only log. The model keeps only the order in which they are called.
- `UE.search_cells`: it returns its argument unchanged and logs.
- `Core`: it only builds an AMF.
- main.py's wiring and its write of a `cell_barred` attribute on a cell: these are orchestration. Its cells, its call sequence and its direct write of `ue.state` are reused in `AttachScenarios`.
- The `random` and `time` libraries: draws are injected rolls, and every value in the source's ranges is reachable. `time` is imported but never used.
- Object identity: a selected cell is held as a value, not a reference to the gNB's cell object.
- The SMF/UPF session variant: no such code is present in these files.
