/**
 * The label columns the dashboard writes into its tables row by row:
 * `time_cluster` and `user_dominance` into the filtered table and
 * `demand_level` into the daily totals. Each is a fresh array parallel to the
 * table, as a pandas column is.
 */
module Columns {
  import opened Options
  import opened Table
  import opened Labels
  import opened Groups

  /** `main_df["time_cluster"] = main_df["hr"].apply(hour_cluster)`. */
  method TimeClusterColumn(t: seq<Record>) returns (col: array<TimeCluster>)
    ensures col.Length == |t|
    ensures forall i :: 0 <= i < |t| ==> col[i] == HourCluster(t[i].hour)
  {
    col := new TimeCluster[|t|];
    var i := 0;
    while i < |t|
      invariant 0 <= i <= |t| == col.Length
      invariant forall j :: 0 <= j < i ==> col[j] == HourCluster(t[j].hour)
    {
      col[i] := HourCluster(t[i].hour);
      i := i + 1;
    }
  }

  /** `main_df["user_dominance"] = main_df.apply(..., axis=1)`. */
  method UserDominanceColumn(t: seq<Record>) returns (col: array<Dominance>)
    ensures col.Length == |t|
    ensures forall i :: 0 <= i < |t| ==> (col[i] == RegisteredDominant <==> t[i].registered > t[i].casual)
    ensures forall i :: 0 <= i < |t| ==> col[i] == UserDominance(t[i])
  {
    col := new Dominance[|t|];
    var i := 0;
    while i < |t|
      invariant 0 <= i <= |t| == col.Length
      invariant forall j :: 0 <= j < i ==> col[j] == UserDominance(t[j])
    {
      col[i] := UserDominance(t[i]);
      i := i + 1;
    }
  }

  /** `daily_demand["demand_level"] = pd.cut(daily_demand["cnt"], bins=[0, 2000, 5000, top], ...)`. */
  method DemandLevelColumn(daily: seq<Group>, top: int) returns (col: array<Option<DemandLevel>>)
    requires 5000 < top
    ensures col.Length == |daily|
    ensures forall i :: 0 <= i < |daily| ==> col[i] == DemandLevelOf(daily[i].sum, top)
    ensures forall i :: 0 <= i < |daily| && 0 < daily[i].sum <= top ==> col[i].Some?
  {
    col := new Option<DemandLevel>[|daily|];
    var i := 0;
    while i < |daily|
      invariant 0 <= i <= |daily| == col.Length
      invariant forall j :: 0 <= j < i ==> col[j] == DemandLevelOf(daily[j].sum, top)
    {
      col[i] := DemandLevelOf(daily[i].sum, top);
      i := i + 1;
    }
  }
}
