/** The selection rule behind `UE.select_cell` (entities.py): keep the cells whose
    PLMN the UE supports, then take the strongest, the first one on a tie. */
module CellSelection {
  import opened Results
  import opened InitialAccess

  /** The MIB check of select_cell: the cell's PLMN is one the UE supports. */
  predicate Supported(c: Cell, supported: seq<string>) {
    c.plmnId in supported
  }

  /** No cell among the first `n` is supported. */
  predicate NoneSupportedIn(cells: seq<Cell>, supported: seq<string>, n: nat)
    requires n <= |cells|
  {
    forall j :: 0 <= j < n ==> !Supported(cells[j], supported)
  }

  /** Cell `k` is what Python's `max` picks among the supported cells of the first `n`:
      supported, at least as strong as every supported cell, and strictly stronger
      than every supported cell before it. */
  predicate IsBestIn(cells: seq<Cell>, supported: seq<string>, n: nat, k: int)
    requires n <= |cells|
  {
    && 0 <= k < n
    && Supported(cells[k], supported)
    && (forall j :: 0 <= j < n && Supported(cells[j], supported) ==>
          cells[j].signalStrength <= cells[k].signalStrength)
    && (forall j :: 0 <= j < k && Supported(cells[j], supported) ==>
          cells[j].signalStrength < cells[k].signalStrength)
  }

  /** Reference selection over the first `n` cells: a left-to-right scan that, like the
      loop inside Python's `max`, replaces its running best only by a strictly stronger cell. */
  function BestIndex(cells: seq<Cell>, supported: seq<string>, n: nat): (r: Option<nat>)
    requires n <= |cells|
    ensures r.Some? ==> r.value < n
  {
    if n == 0 then None
    else
      var best := BestIndex(cells, supported, n - 1);
      if !Supported(cells[n - 1], supported) then best
      else if best.None? || cells[best.value].signalStrength < cells[n - 1].signalStrength then Some(n - 1)
      else best
  }

  /** The scan finds nothing exactly when no cell is supported, and otherwise finds the best cell. */
  lemma {:induction false} BestIndexCorrect(cells: seq<Cell>, supported: seq<string>, n: nat)
    requires n <= |cells|
    ensures BestIndex(cells, supported, n).None? <==> NoneSupportedIn(cells, supported, n)
    ensures BestIndex(cells, supported, n).Some? ==> IsBestIn(cells, supported, n, BestIndex(cells, supported, n).value)
  {
    if n > 0 {
      BestIndexCorrect(cells, supported, n - 1);
    }
  }

  /** The tie-break makes the best cell unique. */
  lemma BestIsUnique(cells: seq<Cell>, supported: seq<string>, n: nat, k1: int, k2: int)
    requires n <= |cells|
    requires IsBestIn(cells, supported, n, k1) && IsBestIn(cells, supported, n, k2)
    ensures k1 == k2
  {
  }

  /** The selection made over all cells, in both directions: the scan returns `k`
      exactly when `k` is the first strongest supported cell. */
  lemma SelectionCharacterized(cells: seq<Cell>, supported: seq<string>, k: int)
    ensures BestIndex(cells, supported, |cells|) == Some(k) <==> IsBestIn(cells, supported, |cells|, k)
  {
    BestIndexCorrect(cells, supported, |cells|);
    var r := BestIndex(cells, supported, |cells|);
    if IsBestIn(cells, supported, |cells|, k) {
      assert r.Some?;
      BestIsUnique(cells, supported, |cells|, k, r.value);
    }
  }

  /** Cells added after the first `n` do not change the scan over the first `n`. */
  lemma {:induction false} BestIndexPrefix(cells: seq<Cell>, extra: seq<Cell>, supported: seq<string>, n: nat)
    requires n <= |cells|
    ensures BestIndex(cells + extra, supported, n) == BestIndex(cells, supported, n)
  {
    if n > 0 {
      BestIndexPrefix(cells, extra, supported, n - 1);
      assert (cells + extra)[n - 1] == cells[n - 1];
    }
  }

  /** A cell of an unsupported PLMN is never selected, however strong it is:
      adding one leaves the selection as it was. */
  lemma UnsupportedCellIgnored(cells: seq<Cell>, c: Cell, supported: seq<string>)
    requires !Supported(c, supported)
    ensures BestIndex(cells + [c], supported, |cells| + 1) == BestIndex(cells, supported, |cells|)
  {
    BestIndexPrefix(cells, [c], supported, |cells|);
    assert (cells + [c])[|cells|] == c;
  }

  /** One entry of the `valid_cells` list: the cell with the MIB and SIB it broadcast. */
  datatype Candidate = Candidate(cell: Cell, mib: Mib, sib: Sib)

  /** The candidate's MIB and SIB are what its cell broadcasts with draw `d`. */
  predicate BroadcastBy(c: Candidate, d: BroadcastDraw) {
    c.mib == SendMib(c.cell, d.mib) && c.sib == SendSib(c.cell, d.sib)
  }

  /** The positions, among the first `n` cells, of the cells with a supported PLMN, in order. */
  ghost function SupportedPositions(cells: seq<Cell>, supported: seq<string>, n: nat): seq<nat>
    requires n <= |cells|
  {
    if n == 0 then []
    else SupportedPositions(cells, supported, n - 1) + (if Supported(cells[n - 1], supported) then [n - 1] else [])
  }

  /** Those positions are increasing, below `n`, each of a supported cell, and every
      supported cell among the first `n` is at one of them. */
  lemma {:induction false} SupportedPositionsSpec(cells: seq<Cell>, supported: seq<string>, n: nat)
    requires n <= |cells|
    ensures forall i :: 0 <= i < |SupportedPositions(cells, supported, n)| ==>
              SupportedPositions(cells, supported, n)[i] < n &&
              Supported(cells[SupportedPositions(cells, supported, n)[i]], supported)
    ensures forall i, i' :: 0 <= i < i' < |SupportedPositions(cells, supported, n)| ==>
              SupportedPositions(cells, supported, n)[i] < SupportedPositions(cells, supported, n)[i']
    ensures forall j :: 0 <= j < n && Supported(cells[j], supported) ==> j in SupportedPositions(cells, supported, n)
  {
    if n > 0 {
      SupportedPositionsSpec(cells, supported, n - 1);
      var prev := SupportedPositions(cells, supported, n - 1);
      if Supported(cells[n - 1], supported) {
        assert SupportedPositions(cells, supported, n) == prev + [n - 1];
      } else {
        assert SupportedPositions(cells, supported, n) == prev;
      }
    }
  }

  /** The first loop of select_cell: every cell broadcasts its MIB and SIB (the `i`-th cell
      with draw `source(i)`), and the cells whose MIB PLMN is supported are kept in order.
      `origin[i]` is the input position of `valid[i]`. */
  method CollectCandidates(cells: seq<Cell>, supported: seq<string>, source: nat -> BroadcastDraw)
    returns (valid: seq<Candidate>, ghost origin: seq<nat>)
    ensures forall i :: 0 <= i < |valid| ==> valid[i].cell in cells && Supported(valid[i].cell, supported)
    ensures forall j :: 0 <= j < |cells| && Supported(cells[j], supported) ==>
              exists i :: 0 <= i < |valid| && valid[i].cell == cells[j]
    ensures origin == SupportedPositions(cells, supported, |cells|)
    ensures |valid| == |origin|
    ensures forall i :: 0 <= i < |valid| ==>
              origin[i] < |cells| && valid[i].cell == cells[origin[i]] &&
              BroadcastBy(valid[i], source(origin[i]))
  {
    valid, origin := [], [];
    for n := 0 to |cells|
      invariant origin == SupportedPositions(cells, supported, n)
      invariant |valid| == |origin|
      invariant forall i :: 0 <= i < |valid| ==>
                  origin[i] < |cells| && valid[i].cell == cells[origin[i]] &&
                  BroadcastBy(valid[i], source(origin[i]))
    {
      var cell := cells[n];
      var mib := SendMib(cell, source(n).mib);
      var sib := SendSib(cell, source(n).sib);
      if mib.plmnId in supported {
        valid := valid + [Candidate(cell, mib, sib)];
        origin := origin + [n];
      }
    }
    SupportedPositionsSpec(cells, supported, |cells|);
    CandidatesCoverSupported(cells, supported, valid, origin);
  }

  /** What the origin list says about the candidates alone: each is a supported input
      cell, and each supported input cell is a candidate. */
  lemma CandidatesCoverSupported(cells: seq<Cell>, supported: seq<string>,
                                 valid: seq<Candidate>, origin: seq<nat>)
    requires |origin| == |valid|
    requires forall i :: 0 <= i < |valid| ==>
               origin[i] < |cells| && valid[i].cell == cells[origin[i]] && Supported(valid[i].cell, supported)
    requires forall j :: 0 <= j < |cells| && Supported(cells[j], supported) ==> j in origin
    ensures forall i :: 0 <= i < |valid| ==> valid[i].cell in cells && Supported(valid[i].cell, supported)
    ensures forall j :: 0 <= j < |cells| && Supported(cells[j], supported) ==>
              exists i :: 0 <= i < |valid| && valid[i].cell == cells[j]
  {
  }

  /** Python's `max(valid_cells, key=signal_strength)`: the first candidate of greatest strength. */
  method FirstStrongest(valid: seq<Candidate>) returns (p: nat)
    requires |valid| > 0
    ensures p < |valid|
    ensures forall i :: 0 <= i < |valid| ==> valid[i].cell.signalStrength <= valid[p].cell.signalStrength
    ensures forall i :: 0 <= i < p ==> valid[i].cell.signalStrength < valid[p].cell.signalStrength
  {
    p := 0;
    for i := 1 to |valid|
      invariant p < i
      invariant forall j :: 0 <= j < i ==> valid[j].cell.signalStrength <= valid[p].cell.signalStrength
      invariant forall j :: 0 <= j < p ==> valid[j].cell.signalStrength < valid[p].cell.signalStrength
    {
      if valid[i].cell.signalStrength > valid[p].cell.signalStrength {
        p := i;
      }
    }
  }

  /** The candidate `max` picks is, back in the input list, the first strongest supported cell. */
  lemma StrongestCandidateIsBest(cells: seq<Cell>, supported: seq<string>,
                                 valid: seq<Candidate>, origin: seq<nat>, p: nat)
    requires origin == SupportedPositions(cells, supported, |cells|)
    requires |origin| == |valid|
    requires forall i :: 0 <= i < |valid| ==> origin[i] < |cells| && valid[i].cell == cells[origin[i]]
    requires p < |valid|
    requires forall i :: 0 <= i < |valid| ==> valid[i].cell.signalStrength <= valid[p].cell.signalStrength
    requires forall i :: 0 <= i < p ==> valid[i].cell.signalStrength < valid[p].cell.signalStrength
    ensures IsBestIn(cells, supported, |cells|, origin[p])
  {
    SupportedPositionsSpec(cells, supported, |cells|);
  }
}
