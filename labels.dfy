/**
 * The three per-row labellings of the dashboard: the time-of-day cluster of an
 * hour, the user dominance of a record, and the right-closed binning that
 * `pd.cut` applies to daily totals.
 */
module Labels {
  import opened Options
  import opened Table

  /** The labels of `hour_cluster`, in the display order of the cluster chart. */
  datatype TimeCluster = MorningRush | Daytime | EveningRush | NightOffPeak

  /** The `order` list of the cluster bar chart. */
  const DisplayOrder: seq<TimeCluster> := [MorningRush, Daytime, EveningRush, NightOffPeak]

  /** `hour_cluster`: the tests `hr in range(lo, hi)` are half-open, as Python's range is. */
  function HourCluster(hr: int): (c: TimeCluster)
    ensures c == MorningRush <==> 7 <= hr <= 9
    ensures c == EveningRush <==> 16 <= hr <= 18
    ensures c == Daytime <==> 10 <= hr <= 15
    ensures c == NightOffPeak <==> hr < 7 || 18 < hr
  {
    if 7 <= hr < 10 then MorningRush
    else if 16 <= hr < 19 then EveningRush
    else if 10 <= hr < 16 then Daytime
    else NightOffPeak
  }

  /** The display order lists every cluster exactly once. */
  lemma DisplayOrderIsComplete()
    ensures |DisplayOrder| == 4
    ensures forall c: TimeCluster :: c in DisplayOrder
    ensures forall i, j :: 0 <= i < j < |DisplayOrder| ==> DisplayOrder[i] != DisplayOrder[j]
  {
    forall c: TimeCluster ensures c in DisplayOrder {
      match c
      case MorningRush => assert DisplayOrder[0] == c;
      case Daytime => assert DisplayOrder[1] == c;
      case EveningRush => assert DisplayOrder[2] == c;
      case NightOffPeak => assert DisplayOrder[3] == c;
    }
  }

  /** The labels of the user-dominance column. */
  datatype Dominance = RegisteredDominant | CasualDominant

  /** The row lambda of the `user_dominance` column: ties go to casual. */
  function UserDominance(r: Record): (d: Dominance)
    ensures d == RegisteredDominant <==> r.registered > r.casual
    ensures d == CasualDominant <==> r.registered <= r.casual
  {
    if r.registered > r.casual then RegisteredDominant else CasualDominant
  }

  /** Bin edges `pd.cut` accepts: it raises unless they strictly increase. */
  predicate Increasing(bins: seq<int>)
  {
    forall i, j :: 0 <= i < j < |bins| ==> bins[i] < bins[j]
  }

  /**
   * `pd.cut(x, bins)` with its defaults `right=True, include_lowest=False`: the
   * index of the right-closed bin (bins[i], bins[i + 1]] holding `x`, or None
   * (NaN) when `x` lies outside every bin.
   */
  function Cut(x: int, bins: seq<int>): (r: Option<nat>)
    requires Increasing(bins)
    ensures r.Some? ==> r.value + 1 < |bins| && bins[r.value] < x <= bins[r.value + 1]
    ensures r.None? <==> |bins| < 2 || x <= bins[0] || bins[|bins| - 1] < x
    decreases |bins|
  {
    if |bins| < 2 || x <= bins[0] then None
    else if x <= bins[1] then Some(0)
    else
      match Cut(x, bins[1..])
      case None => None
      case Some(i) => Some(i + 1)
  }

  /** The labels of the demand-level column. */
  datatype DemandLevel = LowDemand | MediumDemand | HighDemand

  /** The edges the dashboard hands `pd.cut`: 0, 2000, 5000 and the largest daily total. */
  function DemandBins(top: int): seq<int>
  {
    [0, 2000, 5000, top]
  }

  /** The demand bins are valid exactly when the largest daily total exceeds 5000. */
  lemma DemandBinsValid(top: int)
    ensures Increasing(DemandBins(top)) <==> 5000 < top
  {
    if !(5000 < top) {
      assert DemandBins(top)[2] >= DemandBins(top)[3];
    }
  }

  /** The demand level of a daily total: the bin `pd.cut` picks, named by `labels`. */
  function DemandLevelOf(x: int, top: int): (r: Option<DemandLevel>)
    requires 5000 < top
    ensures r == Some(LowDemand) <==> 0 < x <= 2000
    ensures r == Some(MediumDemand) <==> 2000 < x <= 5000
    ensures r == Some(HighDemand) <==> 5000 < x <= top
    ensures r == None <==> x <= 0 || top < x
  {
    DemandBinsValid(top);
    match Cut(x, DemandBins(top))
    case None => None
    case Some(i) => if i == 0 then Some(LowDemand) else if i == 1 then Some(MediumDemand) else Some(HighDemand)
  }

  /** Every daily total in (0, top] gets exactly one label, a total of 0 gets none. */
  lemma DemandLevelTotal(x: int, top: int)
    requires 5000 < top
    ensures 0 < x <= top ==> DemandLevelOf(x, top).Some?
    ensures x == 0 ==> DemandLevelOf(x, top) == None
  {
  }
}
