/** The core-network functions of entities.py: UDM, AUSF and AMF. None of them keeps
    state that changes, so each is a value. */
module CoreNetwork {

  /** The identities `UDM.__init__` provisions. */
  const KnownSubscribers: set<string> := {"imsi-001010123456789", "imsi-001310123456789"}

  /** The authentication algorithm AUSF reports. */
  const AuthAlgorithm: string := "5G-AKA"

  /** A call the AMF makes on the UDM after a successful authentication. The UDM's
      handlers only log, so the model records which calls were made and in what order. */
  datatype UdmCall = RegisterUe(identity: string) | GetSubscriptionData(identity: string)

  /** What `AUSF.authenticate` returns: `{"authenticated": ..., "algorithm": ...}`. */
  datatype AuthData = AuthData(authenticated: bool, algorithm: string)

  /** What `AMF.authenticate` returns, with the UDM calls it made on the way. */
  datatype Registration = Registration(accepted: bool, udmCalls: seq<UdmCall>)

  /** Unified Data Management: the subscriber store. */
  datatype Udm = Udm(subscriberData: set<string>) {

    /** `UDM.authenticate`: exact membership of the identity in the subscriber store. */
    function Authenticate(identity: string): (ok: bool)
      ensures ok <==> identity in subscriberData
    {
      if identity in subscriberData then true else false
    }
  }

  /** `UDM()`: a store holding exactly the provisioned subscribers. */
  const DefaultUdm: Udm := Udm(KnownSubscribers)

  /** Authentication Server Function; it has no state of its own. */
  datatype Ausf = Ausf {

    /** `AUSF.authenticate`: asks the UDM and reports the answer with the algorithm. */
    function Authenticate(identity: string, udm: Udm): (r: AuthData)
      ensures r.authenticated <==> identity in udm.subscriberData
      ensures r.algorithm == "5G-AKA"
    {
      AuthData(udm.Authenticate(identity), AuthAlgorithm)
    }
  }

  /** Access and Mobility Management Function, owning its AUSF and UDM. */
  datatype Amf = Amf(ausf: Ausf, udm: Udm) {

    /** `AMF.authenticate`: authenticates through the AUSF; on success registers the UE
        with the UDM and then fetches its subscription data; on failure calls neither. */
    function Authenticate(identity: string): (r: Registration)
      ensures r.accepted <==> identity in udm.subscriberData
      ensures r.accepted ==> r.udmCalls == [RegisterUe(identity), GetSubscriptionData(identity)]
      ensures !r.accepted ==> r.udmCalls == []
    {
      var authData := ausf.Authenticate(identity, udm);
      if authData.authenticated then
        Registration(true, [RegisterUe(identity), GetSubscriptionData(identity)])
      else
        Registration(false, [])
    }

    /** `AMF.receive_registration_request`: hands the identity to `Authenticate`. The
        request is accepted exactly when the AUSF reports the identity authenticated. */
    function ReceiveRegistrationRequest(identity: string): (r: Registration)
      ensures r.accepted <==> ausf.Authenticate(identity, udm).authenticated
      ensures r.accepted ==> r.udmCalls == [RegisterUe(identity), GetSubscriptionData(identity)]
      ensures !r.accepted ==> r.udmCalls == []
    {
      Authenticate(identity)
    }
  }

  /** `AMF()`: an AMF wired to a fresh AUSF and a default UDM. */
  const DefaultAmf: Amf := Amf(Ausf, DefaultUdm)

  /** Against the provisioned store, registration succeeds exactly for the two known IMSIs. */
  lemma DefaultAmfAccepts(identity: string)
    ensures DefaultAmf.ReceiveRegistrationRequest(identity).accepted <==>
            identity == "imsi-001010123456789" || identity == "imsi-001310123456789"
  {
  }

  /** An identity not provisioned, such as "imsi-999", is rejected without touching the UDM. */
  lemma UnknownIdentityRejected()
    ensures DefaultAmf.ReceiveRegistrationRequest("imsi-999") == Registration(false, [])
  {
    assert "imsi-999" !in KnownSubscribers;
  }
}
