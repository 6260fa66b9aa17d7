/**
 * The hourly rental table: one record per observed hour, with the columns the
 * dashboard reads. Dates are day ordinals rather than parsed timestamps.
 */
module Table {

  /** One row of the rental CSV (dteday, hr, season_hour, weekday, workingday,
      weathersit, casual, registered, cnt). */
  datatype Record = Record(
    day: int,
    hour: int,
    season: int,
    weekday: int,
    workingDay: int,
    weather: int,
    casual: int,
    registered: int,
    cnt: int)

  /** The columns a mask, a group-by or a sum can name. */
  datatype Column = Day | Hour | Season | Weekday | WorkingDay | Weather | Casual | Registered | Cnt

  /** The value of column `c` in row `r`, as `df[c]` reads it. */
  function Get(r: Record, c: Column): int
  {
    match c
    case Day => r.day
    case Hour => r.hour
    case Season => r.season
    case Weekday => r.weekday
    case WorkingDay => r.workingDay
    case Weather => r.weather
    case Casual => r.casual
    case Registered => r.registered
    case Cnt => r.cnt
  }

  /** `df[c].sum()`: the column total, with unbounded integers. */
  function Sum(t: seq<Record>, c: Column): int
  {
    if t == [] then 0 else Get(t[0], c) + Sum(t[1..], c)
  }

  /** The distinct values column `c` takes in `t`. */
  function Values(t: seq<Record>, c: Column): set<int>
  {
    set r | r in t :: Get(r, c)
  }

  /** Column sums split over a concatenation of tables. */
  lemma {:induction false} SumConcat(a: seq<Record>, b: seq<Record>, c: Column)
    ensures Sum(a + b, c) == Sum(a, c) + Sum(b, c)
  {
    if a == [] {
      assert a + b == b;
    } else {
      assert (a + b)[1..] == a[1..] + b;
      SumConcat(a[1..], b, c);
    }
  }

  /** The distinct values of a non-empty table: its first row's value and the rest's. */
  lemma ValuesCons(t: seq<Record>, c: Column)
    requires t != []
    ensures Values(t, c) == {Get(t[0], c)} + Values(t[1..], c)
  {
  }
}
