/**
 * The computations of the dashboard script over the rental table: the
 * date-range selection and its "no data" halt, the three metrics, and every
 * aggregate handed to a chart. Rendering is not modelled; `Report` returns the
 * values the charts would display, or the reason the script stops.
 */
module Dashboard {
  import opened Options
  import opened Table
  import opened Labels
  import opened Frames
  import opened Groups

  // ----- Date-range selection -----

  /** `(df["dteday"] >= start) & (df["dteday"] <= end)`. */
  function DateMask(start: int, end: int): Mask
  {
    Both(AtLeast(Day, start), AtMost(Day, end))
  }

  lemma DateMaskKeeps(start: int, end: int, r: Record)
    ensures Keep(DateMask(start, end), r) <==> start <= r.day <= end
  {
  }

  /** `main_df`: the rows dated within [start, end]. */
  function SelectRange(t: seq<Record>, start: int, end: int): seq<Record>
  {
    Filter(t, DateMask(start, end))
  }

  /** The selection holds exactly the rows dated in [start, end], both ends included,
      with their multiplicities, in their original order. */
  lemma {:induction false} SelectRangeExact(t: seq<Record>, start: int, end: int)
    ensures forall x :: x in SelectRange(t, start, end) <==> x in t && start <= x.day <= end
    ensures forall x :: multiset(SelectRange(t, start, end))[x] == if start <= x.day <= end then multiset(t)[x] else 0
    ensures IsSubsequence(SelectRange(t, start, end), t)
  {
    forall x ensures multiset(SelectRange(t, start, end))[x] == if start <= x.day <= end then multiset(t)[x] else 0 {
      FilterMultiplicity(t, DateMask(start, end), x);
    }
    FilterIsSubsequence(t, DateMask(start, end));
  }

  /** The selection is empty exactly when no row is dated in [start, end]. */
  lemma SelectRangeEmpty(t: seq<Record>, start: int, end: int)
    ensures SelectRange(t, start, end) == [] <==> forall i :: 0 <= i < |t| ==> !(start <= t[i].day <= end)
  {
    var f := SelectRange(t, start, end);
    if f != [] {
      assert f[0] in f;
      DateMaskKeeps(start, end, f[0]);
      var j :| 0 <= j < |t| && t[j] == f[0];
    } else {
      forall i | 0 <= i < |t| ensures !(start <= t[i].day <= end) {
        assert t[i] in t;
        DateMaskKeeps(start, end, t[i]);
      }
    }
  }

  // ----- Metrics -----

  /** The three `st.metric` values. */
  datatype Metrics = Metrics(totalRentals: int, casualUsers: int, registeredUsers: int)

  function MetricsOf(f: seq<Record>): Metrics
  {
    Metrics(Sum(f, Cnt), Sum(f, Casual), Sum(f, Registered))
  }

  /** Where every row's `cnt` is its casual plus its registered count, so are the totals. */
  lemma {:induction false} MetricsAddUp(f: seq<Record>)
    requires forall i :: 0 <= i < |f| ==> f[i].cnt == f[i].casual + f[i].registered
    ensures MetricsOf(f).totalRentals == MetricsOf(f).casualUsers + MetricsOf(f).registeredUsers
  {
    if f != [] {
      assert forall i :: 0 <= i < |f[1..]| ==> f[1..][i] == f[i + 1];
      MetricsAddUp(f[1..]);
    }
  }

  /** Selecting a range splits at any day into the two ranges on either side, so the
      total over [start, end] is the total of [start, mid] and of [mid + 1, end] added. */
  lemma {:induction false} TotalSplitsAtDay(t: seq<Record>, start: int, mid: int, end: int)
    ensures Sum(SelectRange(t, start, end), Cnt) ==
      (if start <= mid && mid < end
       then Sum(SelectRange(t, start, mid), Cnt) + Sum(SelectRange(t, mid + 1, end), Cnt)
       else Sum(SelectRange(t, start, end), Cnt))
  {
    if start <= mid && mid < end {
      var a, b := DateMask(start, mid), DateMask(mid + 1, end);
      forall r: Record ensures Keep(Either(a, b), r) == Keep(DateMask(start, end), r)
        && !(Keep(a, r) && Keep(b, r))
      {
        DateMaskKeeps(start, mid, r);
        DateMaskKeeps(mid + 1, end, r);
        DateMaskKeeps(start, end, r);
      }
      FilterDisjointEither(t, a, b, Cnt);
      FilterSameMask(t, Either(a, b), DateMask(start, end));
    }
  }

  // ----- Daily trend and daily demand -----

  /** `main_df.groupby("dteday")["cnt"].sum()`. */
  function DailyTotals(f: seq<Record>): seq<Group>
  {
    GroupBy(f, Day, Cnt)
  }

  /** One row per distinct date, in date order; each row's total is that date's total;
      and the rows add up to the "Total Rentals" metric. */
  lemma DailyTotalsMatchMetric(f: seq<Record>)
    ensures StrictlySorted(DailyTotals(f)) && Keys(DailyTotals(f)) == Values(f, Day)
    ensures TotalSum(DailyTotals(f)) == MetricsOf(f).totalRentals
    ensures forall i :: 0 <= i < |DailyTotals(f)| ==>
      DailyTotals(f)[i].sum == Sum(SelectRange(f, DailyTotals(f)[i].key, DailyTotals(f)[i].key), Cnt)
  {
    var gs := DailyTotals(f);
    GroupByShape(f, Day, Cnt);
    GroupByTotals(f, Day, Cnt);
    forall i | 0 <= i < |gs|
      ensures gs[i].sum == Sum(SelectRange(f, gs[i].key, gs[i].key), Cnt)
    {
      GroupByRow(f, Day, Cnt, i);
      FilterSameMask(f, Equals(Day, gs[i].key), DateMask(gs[i].key, gs[i].key));
    }
  }

  // ----- Season averages -----

  /** `main_df.groupby("season_hour")["cnt"].mean()`, as sums and counts. */
  function SeasonAverages(f: seq<Record>): seq<Group>
  {
    GroupBy(f, Season, Cnt)
  }

  /** `season_avg.loc[season_avg["cnt"].idxmax(), "season_hour"]`: a season whose mean
      is the largest, and the lowest such season when several tie. */
  function MaxSeason(f: seq<Record>): (s: int)
    requires f != []
    ensures s in Values(f, Season)
    ensures forall s' :: s' in Values(f, Season) ==> GroupMean(f, Season, Cnt, s') <= GroupMean(f, Season, Cnt, s)
    ensures forall s' :: s' in Values(f, Season) && s' < s ==> GroupMean(f, Season, Cnt, s') < GroupMean(f, Season, Cnt, s)
  {
    var gs := SeasonAverages(f);
    GroupByShape(f, Season, Cnt);
    GroupByMeans(f, Season, Cnt);
    var i := FirstArgMax(Means(gs));
    MaxSeasonIsFirstMaximum(f, i);
    gs[i].key
  }

  lemma MaxSeasonIsFirstMaximum(f: seq<Record>, i: int)
    requires f != []
    requires Populated(SeasonAverages(f)) && 0 <= i < |SeasonAverages(f)|
    requires forall j :: 0 <= j < |SeasonAverages(f)| ==> Means(SeasonAverages(f))[j] <= Means(SeasonAverages(f))[i]
    requires forall j :: 0 <= j < i ==> Means(SeasonAverages(f))[j] < Means(SeasonAverages(f))[i]
    ensures SeasonAverages(f)[i].key in Values(f, Season)
    ensures forall s' :: s' in Values(f, Season) ==>
      GroupMean(f, Season, Cnt, s') <= GroupMean(f, Season, Cnt, SeasonAverages(f)[i].key)
    ensures forall s' :: s' in Values(f, Season) && s' < SeasonAverages(f)[i].key ==>
      GroupMean(f, Season, Cnt, s') < GroupMean(f, Season, Cnt, SeasonAverages(f)[i].key)
  {
    var gs := SeasonAverages(f);
    GroupByShape(f, Season, Cnt);
    GroupByMeans(f, Season, Cnt);
    forall s' | s' in Values(f, Season)
      ensures GroupMean(f, Season, Cnt, s') <= GroupMean(f, Season, Cnt, gs[i].key)
      ensures s' < gs[i].key ==> GroupMean(f, Season, Cnt, s') < GroupMean(f, Season, Cnt, gs[i].key)
    {
      KeysIndex(gs, s');
      var j :| 0 <= j < |gs| && gs[j].key == s';
      if s' < gs[i].key {
        assert j < i;
      }
    }
  }

  // ----- User contribution -----

  /** `main_df[["casual", "registered"]].mean()`. */
  datatype UserMeans = UserMeans(casual: real, registered: real)

  function UserMeansOf(f: seq<Record>): (u: UserMeans)
    requires f != []
    ensures u.casual * |f| as real == MetricsOf(f).casualUsers as real
    ensures u.registered * |f| as real == MetricsOf(f).registeredUsers as real
  {
    UserMeans(Sum(f, Casual) as real / |f| as real, Sum(f, Registered) as real / |f| as real)
  }

  // ----- Hourly pattern by working day -----

  /** The line of one `workingday` value: mean `cnt` per hour. */
  datatype DayTypeHours = DayTypeHours(workingDay: int, hours: seq<Group>)

  /** The groups seaborn's `lineplot(x="hr", y="cnt", hue="workingday")` averages. */
  function HourlyByDayType(f: seq<Record>): (lines: seq<DayTypeHours>)
    ensures |lines| == |GroupBy(f, WorkingDay, Cnt)|
  {
    var kinds := GroupBy(f, WorkingDay, Cnt);
    seq(|kinds|, i requires 0 <= i < |kinds| =>
      DayTypeHours(kinds[i].key, GroupBy(Filter(f, Equals(WorkingDay, kinds[i].key)), Hour, Cnt)))
  }

  /** Each point of each line is the sum and count of the rows with that working-day
      flag and that hour. */
  lemma HourlyByDayTypeCell(f: seq<Record>, i: int, j: int)
    requires 0 <= i < |HourlyByDayType(f)| && 0 <= j < |HourlyByDayType(f)[i].hours|
    ensures HourlyByDayType(f)[i].workingDay in Values(f, WorkingDay)
    ensures HourlyByDayType(f)[i].hours[j].sum ==
      Sum(Filter(f, Both(Equals(WorkingDay, HourlyByDayType(f)[i].workingDay), Equals(Hour, HourlyByDayType(f)[i].hours[j].key))), Cnt)
    ensures HourlyByDayType(f)[i].hours[j].count ==
      |Filter(f, Both(Equals(WorkingDay, HourlyByDayType(f)[i].workingDay), Equals(Hour, HourlyByDayType(f)[i].hours[j].key)))| > 0
  {
    var w := HourlyByDayType(f)[i].workingDay;
    GroupByRow(f, WorkingDay, Cnt, i);
    var sel := Filter(f, Equals(WorkingDay, w));
    GroupByRow(sel, Hour, Cnt, j);
    FilterCompose(f, Equals(WorkingDay, w), Equals(Hour, GroupBy(sel, Hour, Cnt)[j].key));
  }

  // ----- Rush hours and weather -----

  /** `main_df["hr"].between(7, 9) | main_df["hr"].between(16, 18)`. */
  const RushHourMask: Mask := Either(Between(Hour, 7, 9), Between(Hour, 16, 18))

  function RushHour(f: seq<Record>): seq<Record>
  {
    Filter(f, RushHourMask)
  }

  /** The rush-hour rows are those of hour 7..9 or 16..18, in order, and they are exactly
      the rows `hour_cluster` labels Morning Rush or Evening Rush. */
  lemma {:induction false} RushHourIsRushClusters(f: seq<Record>)
    ensures forall x :: x in RushHour(f) <==> x in f && (7 <= x.hour <= 9 || 16 <= x.hour <= 18)
    ensures IsSubsequence(RushHour(f), f)
    ensures RushHour(f) == Filter(f, Either(ClusterIs(MorningRush), ClusterIs(EveningRush)))
    ensures |RushHour(f)| == |Filter(f, ClusterIs(MorningRush))| + |Filter(f, ClusterIs(EveningRush))|
    ensures Sum(RushHour(f), Cnt) == Sum(Filter(f, ClusterIs(MorningRush)), Cnt) + Sum(Filter(f, ClusterIs(EveningRush)), Cnt)
  {
    var clusters := Either(ClusterIs(MorningRush), ClusterIs(EveningRush));
    FilterIsSubsequence(f, RushHourMask);
    FilterSameMask(f, RushHourMask, clusters);
    FilterDisjointEither(f, ClusterIs(MorningRush), ClusterIs(EveningRush), Cnt);
  }

  /** The weather bars over rush hours: `cnt` grouped by `weathersit`. */
  function RushHourWeather(f: seq<Record>): seq<Group>
  {
    GroupBy(RushHour(f), Weather, Cnt)
  }

  /** Each weather bar is the sum and count of the rush-hour rows of that weather. */
  lemma RushHourWeatherRow(f: seq<Record>, i: int)
    requires 0 <= i < |RushHourWeather(f)|
    ensures RushHourWeather(f)[i].sum == Sum(Filter(f, Both(RushHourMask, Equals(Weather, RushHourWeather(f)[i].key))), Cnt)
    ensures RushHourWeather(f)[i].count == |Filter(f, Both(RushHourMask, Equals(Weather, RushHourWeather(f)[i].key)))| > 0
  {
    GroupByRow(RushHour(f), Weather, Cnt, i);
    FilterCompose(f, RushHourMask, Equals(Weather, RushHourWeather(f)[i].key));
  }

  // ----- Demand levels -----

  /** The `demand_level` column of the daily totals. */
  function DemandLevels(daily: seq<Group>, top: int): (levels: seq<Option<DemandLevel>>)
    requires 5000 < top
    ensures |levels| == |daily|
  {
    seq(|daily|, i requires 0 <= i < |daily| => DemandLevelOf(daily[i].sum, top))
  }

  /** How many entries of a label column carry label `l`. */
  function CountLevel(levels: seq<Option<DemandLevel>>, l: Option<DemandLevel>): nat
  {
    if levels == [] then 0 else (if levels[0] == l then 1 else 0) + CountLevel(levels[1..], l)
  }

  /** The bar heights of the demand count plot, and the NaN entries it drops. */
  datatype DemandCounts = DemandCounts(low: nat, medium: nat, high: nat, unlabelled: nat)

  function DemandCountsOf(levels: seq<Option<DemandLevel>>): DemandCounts
  {
    DemandCounts(CountLevel(levels, Some(LowDemand)), CountLevel(levels, Some(MediumDemand)),
                 CountLevel(levels, Some(HighDemand)), CountLevel(levels, None))
  }

  /** Every day is counted under exactly one of the three labels or as unlabelled. */
  lemma {:induction false} DemandCountsPartition(levels: seq<Option<DemandLevel>>)
    ensures var c := DemandCountsOf(levels); c.low + c.medium + c.high + c.unlabelled == |levels|
  {
    if levels != [] {
      DemandCountsPartition(levels[1..]);
      match levels[0]
      case None =>
      case Some(l) => match l { case LowDemand => case MediumDemand => case HighDemand => }
    }
  }

  lemma {:induction false} CountLevelAbsent(levels: seq<Option<DemandLevel>>, l: Option<DemandLevel>)
    requires forall i :: 0 <= i < |levels| ==> levels[i] != l
    ensures CountLevel(levels, l) == 0
  {
    if levels != [] {
      assert forall i :: 0 <= i < |levels[1..]| ==> levels[1..][i] == levels[i + 1];
      CountLevelAbsent(levels[1..], l);
    }
  }

  /** When every daily total lies in (0, top], every day gets one of the three labels. */
  lemma DemandAllLabelled(daily: seq<Group>, top: int)
    requires 5000 < top
    requires forall i :: 0 <= i < |daily| ==> 0 < daily[i].sum <= top
    ensures DemandCountsOf(DemandLevels(daily, top)).unlabelled == 0
    ensures var c := DemandCountsOf(DemandLevels(daily, top)); c.low + c.medium + c.high == |daily|
  {
    CountLevelAbsent(DemandLevels(daily, top), None);
    DemandCountsPartition(DemandLevels(daily, top));
  }

  lemma {:induction false} SumPositive(t: seq<Record>)
    requires t != [] && forall i :: 0 <= i < |t| ==> t[i].cnt > 0
    ensures Sum(t, Cnt) > 0
  {
    if |t| > 1 {
      assert forall i :: 0 <= i < |t[1..]| ==> t[1..][i] == t[i + 1];
      SumPositive(t[1..]);
    }
  }

  /** With positive hourly counts every daily total lies in (0, max], so every day is labelled. */
  lemma DailyTotalsPositive(f: seq<Record>)
    requires f != [] && forall i :: 0 <= i < |f| ==> f[i].cnt > 0
    ensures forall i :: 0 <= i < |DailyTotals(f)| ==> 0 < DailyTotals(f)[i].sum <= MaxSum(DailyTotals(f))
  {
    forall i | 0 <= i < |DailyTotals(f)| ensures 0 < DailyTotals(f)[i].sum {
      var sel := Filter(f, Equals(Day, DailyTotals(f)[i].key));
      GroupByRow(f, Day, Cnt, i);
      forall j | 0 <= j < |sel| ensures sel[j].cnt > 0 {
        assert sel[j] in sel;
      }
      SumPositive(sel);
    }
  }

  // ----- Time clusters -----

  /** One bar of the cluster chart: the sum and count whose ratio it shows. */
  datatype ClusterStat = ClusterStat(cluster: TimeCluster, sum: int, count: nat)

  function ClusterStatOf(f: seq<Record>, c: TimeCluster): ClusterStat
  {
    ClusterStat(c, Sum(Filter(f, ClusterIs(c)), Cnt), |Filter(f, ClusterIs(c))|)
  }

  /** The bars of the cluster chart, in its display order. */
  function ClusterStats(f: seq<Record>): (stats: seq<ClusterStat>)
    ensures |stats| == |DisplayOrder|
  {
    seq(|DisplayOrder|, i requires 0 <= i < |DisplayOrder| => ClusterStatOf(f, DisplayOrder[i]))
  }

  /** The four clusters partition the rows: counts add up to the row count and sums to
      the total. */
  lemma {:induction false} ClusterPartition(f: seq<Record>)
    ensures |Filter(f, ClusterIs(MorningRush))| + |Filter(f, ClusterIs(Daytime))| +
            |Filter(f, ClusterIs(EveningRush))| + |Filter(f, ClusterIs(NightOffPeak))| == |f|
    ensures Sum(Filter(f, ClusterIs(MorningRush)), Cnt) + Sum(Filter(f, ClusterIs(Daytime)), Cnt) +
            Sum(Filter(f, ClusterIs(EveningRush)), Cnt) + Sum(Filter(f, ClusterIs(NightOffPeak)), Cnt) == Sum(f, Cnt)
  {
    if f != [] {
      ClusterPartition(f[1..]);
      FilterSizeSum(f, ClusterIs(MorningRush), Cnt);
      FilterSizeSum(f, ClusterIs(Daytime), Cnt);
      FilterSizeSum(f, ClusterIs(EveningRush), Cnt);
      FilterSizeSum(f, ClusterIs(NightOffPeak), Cnt);
    }
  }

  lemma ClusterStatsCover(f: seq<Record>)
    ensures forall i :: 0 <= i < 4 ==> ClusterStats(f)[i].cluster == DisplayOrder[i]
    ensures ClusterStats(f)[0].count + ClusterStats(f)[1].count + ClusterStats(f)[2].count + ClusterStats(f)[3].count == |f|
    ensures ClusterStats(f)[0].sum + ClusterStats(f)[1].sum + ClusterStats(f)[2].sum + ClusterStats(f)[3].sum == Sum(f, Cnt)
  {
    ClusterPartition(f);
  }

  // ----- User dominance -----

  /** The bar heights of the user-dominance count plot. */
  datatype DominanceCounts = DominanceCounts(registeredDominant: nat, casualDominant: nat)

  function DominanceCountsOf(f: seq<Record>): DominanceCounts
  {
    DominanceCounts(|Filter(f, DominanceIs(RegisteredDominant))|, |Filter(f, DominanceIs(CasualDominant))|)
  }

  /** Every row is counted under exactly one label. */
  lemma DominancePartition(f: seq<Record>)
    ensures DominanceCountsOf(f).registeredDominant + DominanceCountsOf(f).casualDominant == |f|
  {
    var both := Either(DominanceIs(RegisteredDominant), DominanceIs(CasualDominant));
    FilterDisjointEither(f, DominanceIs(RegisteredDominant), DominanceIs(CasualDominant), Cnt);
    FilterKeepsAll(f, both);
  }

  // ----- The whole script -----

  /** Everything the charts and metrics display for one date range. */
  datatype Views = Views(
    metrics: Metrics,
    daily: seq<Group>,
    seasonAverages: seq<Group>,
    maxSeason: int,
    userMeans: UserMeans,
    hourlyByDayType: seq<DayTypeHours>,
    rushHourWeather: seq<Group>,
    demandLevels: seq<Option<DemandLevel>>,
    demandCounts: DemandCounts,
    clusters: seq<ClusterStat>,
    dominance: DominanceCounts)

  /** How one run of the script ends: the empty-range warning and stop, the error
      `pd.cut` raises for bins that do not increase, or every view computed. */
  datatype Outcome = NoDataWarning | DemandBinsError | Rendered(views: Views)

  function Report(t: seq<Record>, start: int, end: int): (r: Outcome)
    ensures r == NoDataWarning <==> forall i :: 0 <= i < |t| ==> !(start <= t[i].day <= end)
    ensures r == DemandBinsError <==>
      SelectRange(t, start, end) != [] && MaxSum(DailyTotals(SelectRange(t, start, end))) <= 5000
  {
    SelectRangeEmpty(t, start, end);
    var f := SelectRange(t, start, end);
    if f == [] then NoDataWarning
    else
      var daily := DailyTotals(f);
      var top := MaxSum(daily);
      DemandBinsValid(top);
      if !Increasing(DemandBins(top)) then DemandBinsError
      else
        var levels := DemandLevels(daily, top);
        Rendered(Views(MetricsOf(f), daily, SeasonAverages(f), MaxSeason(f), UserMeansOf(f),
                       HourlyByDayType(f), RushHourWeather(f), levels, DemandCountsOf(levels),
                       ClusterStats(f), DominanceCountsOf(f)))
  }

  /** What a rendered run displays: the daily totals add up to Total Rentals, the
      highlighted season has the largest mean, and the cluster, dominance and demand
      counts each partition their table. */
  lemma RenderedViews(t: seq<Record>, start: int, end: int)
    requires Report(t, start, end).Rendered?
    ensures SelectRange(t, start, end) != []
    ensures var f, v := SelectRange(t, start, end), Report(t, start, end).views;
      && v.metrics.totalRentals == Sum(f, Cnt)
      && v.metrics.casualUsers == Sum(f, Casual)
      && v.metrics.registeredUsers == Sum(f, Registered)
      && TotalSum(v.daily) == v.metrics.totalRentals
      && v.maxSeason in Values(f, Season)
      && (forall s :: s in Values(f, Season) ==> GroupMean(f, Season, Cnt, s) <= GroupMean(f, Season, Cnt, v.maxSeason))
      && v.dominance.registeredDominant + v.dominance.casualDominant == |f|
      && v.clusters[0].count + v.clusters[1].count + v.clusters[2].count + v.clusters[3].count == |f|
      && v.demandCounts.low + v.demandCounts.medium + v.demandCounts.high + v.demandCounts.unlabelled == |v.daily|
      && ((forall i :: 0 <= i < |t| ==> t[i].cnt > 0) ==> v.demandCounts.unlabelled == 0)
  {
    var f := SelectRange(t, start, end);
    var v := Report(t, start, end).views;
    var top := MaxSum(DailyTotals(f));
    DemandBinsValid(top);
    DailyTotalsMatchMetric(f);
    DominancePartition(f);
    ClusterStatsCover(f);
    DemandCountsPartition(v.demandLevels);
    if forall i :: 0 <= i < |t| ==> t[i].cnt > 0 {
      forall i | 0 <= i < |f| ensures f[i].cnt > 0 {
        assert f[i] in f;
      }
      DailyTotalsPositive(f);
      DemandAllLabelled(DailyTotals(f), top);
    }
  }

  // ----- Worked examples -----

  /** Three hours of one day with counts 10, 5 and 15: selecting that day gives
      Total Rentals 30, and the daily rows add up to it. */
  lemma SingleDayExample()
    ensures var t := [Record(0, 8, 1, 6, 0, 1, 3, 7, 10), Record(0, 20, 1, 6, 0, 2, 1, 4, 5), Record(0, 12, 1, 6, 0, 1, 5, 10, 15)];
      MetricsOf(SelectRange(t, 0, 0)).totalRentals == 30 && TotalSum(DailyTotals(SelectRange(t, 0, 0))) == 30
  {
    var t := [Record(0, 8, 1, 6, 0, 1, 3, 7, 10), Record(0, 20, 1, 6, 0, 2, 1, 4, 5), Record(0, 12, 1, 6, 0, 1, 5, 10, 15)];
    DateMaskKeeps(0, 0, t[0]);
    DateMaskKeeps(0, 0, t[1]);
    DateMaskKeeps(0, 0, t[2]);
    FilterKeepsAll(t, DateMask(0, 0));
    DailyTotalsMatchMetric(t);
  }

  /** Hour 8 is Morning Rush and hour 20 is Night / Off Peak; of those two rows, only
      the first is a rush-hour row. */
  lemma HourExamples()
    ensures HourCluster(8) == MorningRush && HourCluster(20) == NightOffPeak
    ensures var a, b := Record(0, 8, 1, 6, 0, 1, 3, 7, 10), Record(0, 20, 1, 6, 0, 2, 1, 4, 5);
      RushHour([a, b]) == [a]
  {
    var a, b := Record(0, 8, 1, 6, 0, 1, 3, 7, 10), Record(0, 20, 1, 6, 0, 2, 1, 4, 5);
    assert Keep(Between(Hour, 7, 9), a);
    assert !Keep(Between(Hour, 7, 9), b) && !Keep(Between(Hour, 16, 18), b);
    assert [a, b][1..] == [b];
    assert Filter([b], RushHourMask) == [];
  }

  /** A range whose only day totals 30 rentals makes the demand edges [0, 2000, 5000, 30]
      non-increasing, so the run stops in `pd.cut` instead of rendering. */
  lemma SmallRangeStopsInCut()
    ensures Report([Record(0, 8, 1, 6, 0, 1, 3, 7, 10), Record(0, 12, 1, 6, 0, 1, 5, 15, 20)], 0, 0) == DemandBinsError
  {
    var t := [Record(0, 8, 1, 6, 0, 1, 3, 7, 10), Record(0, 12, 1, 6, 0, 1, 5, 15, 20)];
    DateMaskKeeps(0, 0, t[0]);
    DateMaskKeeps(0, 0, t[1]);
    FilterKeepsAll(t, DateMask(0, 0));
    GroupByTotals(t, Day, Cnt);
    var gs := DailyTotals(t);
    var m := MaxSum(gs);
    var i :| 0 <= i < |gs| && gs[i].sum == m;
    GroupByRow(t, Day, Cnt, i);
    assert Sum(t, Cnt) == 30;
    SubTableSum(t, Filter(t, Equals(Day, gs[i].key)));
  }

  /** The total of a selection of rows with non-negative counts is at most the table's. */
  lemma {:induction false} SubTableSum(t: seq<Record>, s: seq<Record>)
    requires forall i :: 0 <= i < |t| ==> t[i].cnt >= 0
    requires IsSubsequence(s, t)
    ensures Sum(s, Cnt) <= Sum(t, Cnt)
    decreases |t|
  {
    if t != [] {
      assert Sum(t, Cnt) == t[0].cnt + Sum(t[1..], Cnt);
      assert forall i :: 0 <= i < |t[1..]| ==> t[1..][i] == t[i + 1];
      if s != [] && s[0] == t[0] && IsSubsequence(s[1..], t[1..]) {
        assert Sum(s, Cnt) == s[0].cnt + Sum(s[1..], Cnt);
        SubTableSum(t[1..], s[1..]);
      } else {
        SubTableSum(t[1..], s);
      }
    }
  }
}
