/** Cells and their broadcast system information (initial_access.py). */
module InitialAccess {

  /** A cell as the gNB announces it. The datatype constructor is the source's
      `Cell.__init__`: it stores its five arguments unchanged. A cell is a value,
      so nothing that reads it can change it. */
  datatype Cell = Cell(cellId: int, signalStrength: int, plmnId: string, frequency: int, cellType: string)

  /** Master Information Block. */
  datatype Mib = Mib(cellId: int, plmnId: string, bandwidth: int, schedulingInfo: int)

  /** System Information Block. */
  datatype Sib = Sib(plmnId: string, trackingAreaCode: int, cellBarred: bool,
                     allowedAccessClasses: seq<int>, cellType: string)

  /** The raw random numbers one `send_mib` call consumes. */
  datatype MibDraw = MibDraw(bandwidthRoll: nat, schedulingRoll: nat)

  /** The raw random numbers one `send_sib` call consumes. */
  datatype SibDraw = SibDraw(trackingAreaRoll: nat, barredRoll: nat)

  /** Everything a cell draws while it broadcasts its MIB and then its SIB. */
  datatype BroadcastDraw = BroadcastDraw(mib: MibDraw, sib: SibDraw)

  const BandwidthOptions: seq<int> := [10, 20, 40, 80, 100]
  const BarredOptions: seq<bool> := [true, false]
  const MinSchedulingInfo: int := 1
  const MaxSchedulingInfo: int := 10
  const MinTrackingAreaCode: int := 1
  const MaxTrackingAreaCode: int := 1000
  /** `list(range(1, 11))` */
  const AccessClasses: seq<int> := [1, 2, 3, 4, 5, 6, 7, 8, 9, 10]

  /** `random.choice(options)`, driven by an injected roll. */
  function Choice<T>(options: seq<T>, roll: nat): (x: T)
    requires |options| > 0
    ensures x in options
  {
    options[roll % |options|]
  }

  /** Every option is drawn by some roll, so `Choice` ranges over exactly `options`. */
  lemma ChoiceCovers<T>(options: seq<T>, x: T)
    requires x in options
    ensures exists roll: nat :: Choice(options, roll) == x
  {
    var i :| 0 <= i < |options| && options[i] == x;
    assert Choice(options, i) == x;
  }

  /** `random.randint(lo, hi)`, which includes both ends, driven by an injected roll. */
  function RandInt(lo: int, hi: int, roll: nat): (x: int)
    requires lo <= hi
    ensures lo <= x <= hi
  {
    lo + roll % (hi - lo + 1)
  }

  /** Every integer of `[lo, hi]` is drawn by some roll. */
  lemma RandIntCovers(lo: int, hi: int, x: int)
    requires lo <= x <= hi
    ensures exists roll: nat :: RandInt(lo, hi, roll) == x
  {
    var roll: nat := x - lo;
    assert RandInt(lo, hi, roll) == x;
  }

  /** `Cell.send_mib`: echoes the cell's id and PLMN, draws bandwidth and scheduling info. */
  function SendMib(c: Cell, d: MibDraw): (m: Mib)
    ensures m.cellId == c.cellId && m.plmnId == c.plmnId
    ensures m.bandwidth in {10, 20, 40, 80, 100}
    ensures 1 <= m.schedulingInfo <= 10
  {
    Mib(c.cellId, c.plmnId,
        Choice(BandwidthOptions, d.bandwidthRoll),
        RandInt(MinSchedulingInfo, MaxSchedulingInfo, d.schedulingRoll))
  }

  /** Every MIB allowed by the ranges above is broadcast for some draw. */
  lemma SendMibCovers(c: Cell, bandwidth: int, schedulingInfo: int)
    requires bandwidth in {10, 20, 40, 80, 100}
    requires 1 <= schedulingInfo <= 10
    ensures exists d :: SendMib(c, d) == Mib(c.cellId, c.plmnId, bandwidth, schedulingInfo)
  {
    ChoiceCovers(BandwidthOptions, bandwidth);
    RandIntCovers(MinSchedulingInfo, MaxSchedulingInfo, schedulingInfo);
    var b: nat :| Choice(BandwidthOptions, b) == bandwidth;
    var s: nat :| RandInt(MinSchedulingInfo, MaxSchedulingInfo, s) == schedulingInfo;
    assert SendMib(c, MibDraw(b, s)) == Mib(c.cellId, c.plmnId, bandwidth, schedulingInfo);
  }

  /** `Cell.send_sib`: echoes the PLMN and cell type, draws the tracking-area code and
      the barred flag; the allowed access classes are always 1 to 10. */
  function SendSib(c: Cell, d: SibDraw): (s: Sib)
    ensures s.plmnId == c.plmnId && s.cellType == c.cellType
    ensures 1 <= s.trackingAreaCode <= 1000
    ensures |s.allowedAccessClasses| == 10
    ensures forall i :: 0 <= i < 10 ==> s.allowedAccessClasses[i] == i + 1
  {
    Sib(c.plmnId,
        RandInt(MinTrackingAreaCode, MaxTrackingAreaCode, d.trackingAreaRoll),
        Choice(BarredOptions, d.barredRoll),
        AccessClasses,
        c.cellType)
  }

  /** Every SIB allowed by the ranges above is broadcast for some draw. */
  lemma SendSibCovers(c: Cell, trackingAreaCode: int, barred: bool)
    requires 1 <= trackingAreaCode <= 1000
    ensures exists d :: SendSib(c, d) == Sib(c.plmnId, trackingAreaCode, barred, AccessClasses, c.cellType)
  {
    RandIntCovers(MinTrackingAreaCode, MaxTrackingAreaCode, trackingAreaCode);
    var t: nat :| RandInt(MinTrackingAreaCode, MaxTrackingAreaCode, t) == trackingAreaCode;
    var b: nat := if barred then 0 else 1;
    assert SendSib(c, SibDraw(t, b)) == Sib(c.plmnId, trackingAreaCode, barred, AccessClasses, c.cellType);
  }
}
