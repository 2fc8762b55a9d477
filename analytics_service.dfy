/** The analytics service's own computations (src/lib/services/analytics.service.ts): the
    row mappings of `getDailyActivity` and `getTopTools`, and the 7 x 24 bucketing of
    `getHourlyHeatmap`. The queries themselves (filtering by user and date range, ordering,
    the `get_top_tools` procedure) run in the database; their rows are parameters here, and a
    failed query is the datastore error `queryError`. */
module AnalyticsService {
  import opened Wrappers
  import opened Counters
  import opened ServiceTypes
  import opened AnalyticsTypes

  // ---------------------------------------------------------------------------
  // Daily activity and top tools: row mappings
  // ---------------------------------------------------------------------------

  /** A row of `daily_aggregates`. `dayOfWeek` is `new Date(date).getDay()` (0 = Sunday; a
      date that does not parse gives a value outside 0..6). `hourly` is None when
      `hourly_distribution` is not an array; an element is None when it is null. */
  datatype AggregateRow = AggregateRow(
    date: string, sessions: int, events: int, toolUses: int,
    dayOfWeek: int, hourly: Option<seq<Option<int>>>)

  function ActivityOf(row: AggregateRow): DailyActivity {
    DailyActivity(row.date, row.sessions, row.events, row.toolUses)
  }

  /** `getDailyActivity`: one activity record per row, in the query's order (`data ?? []`). */
  function GetDailyActivity(queryError: Option<DbError>, data: Option<seq<AggregateRow>>): (r: ServiceResult<seq<DailyActivity>>)
    ensures queryError.Some? ==> r == DbFailure("QUERY_FAILED", "Failed to get daily activity", queryError.value)
    ensures queryError.None? ==> r.Success? && |r.data| == |data.GetOr([])|
    ensures queryError.None? ==>
              forall i :: 0 <= i < |data.GetOr([])| ==>
                var row := data.GetOr([])[i];
                r.data[i].date == row.date && r.data[i].sessions == row.sessions &&
                r.data[i].events == row.events && r.data[i].toolUses == row.toolUses
  {
    if queryError.Some? then DbFailure("QUERY_FAILED", "Failed to get daily activity", queryError.value)
    else
      var rows := data.GetOr([]);
      Success(seq(|rows|, i requires 0 <= i < |rows| => ActivityOf(rows[i])))
  }

  /** A row of `get_top_tools`; a duration is None when null or absent. */
  datatype ToolRow = ToolRow(
    toolName: string, count: int, avgDurationMs: Option<real>, p50DurationMs: Option<real>,
    p99DurationMs: Option<real>)

  function StatOf(row: ToolRow): ToolUsageStat {
    ToolUsageStat(row.toolName, row.count, row.avgDurationMs, row.p50DurationMs, row.p99DurationMs, 0)
  }

  /** `getTopTools`: the procedure's rows with `trend` set to 0. */
  function GetTopTools(rpcError: Option<DbError>, data: Option<seq<ToolRow>>): (r: ServiceResult<seq<ToolUsageStat>>)
    ensures rpcError.Some? ==> r == DbFailure("RPC_FAILED", "Failed to get top tools", rpcError.value)
    ensures rpcError.None? ==> r.Success? && |r.data| == |data.GetOr([])|
    ensures rpcError.None? ==>
              forall i :: 0 <= i < |r.data| ==>
                var row := data.GetOr([])[i];
                r.data[i].trend == 0 && r.data[i].toolName == row.toolName && r.data[i].count == row.count &&
                r.data[i].avgDurationMs == row.avgDurationMs && r.data[i].p50DurationMs == row.p50DurationMs &&
                r.data[i].p99DurationMs == row.p99DurationMs
  {
    if rpcError.Some? then DbFailure("RPC_FAILED", "Failed to get top tools", rpcError.value)
    else
      var rows := data.GetOr([]);
      Success(seq(|rows|, i requires 0 <= i < |rows| => StatOf(rows[i])))
  }

  // ---------------------------------------------------------------------------
  // The hourly heatmap
  // ---------------------------------------------------------------------------

  const Days: int := 7
  const Hours: int := 24

  /** What one row adds to bucket (dow, hour): `hourly[hour] ?? 0` for an array row of that
      day whose length exceeds `hour`, with `hour < 24`; nothing otherwise. */
  function Contribution(row: AggregateRow, dow: int, hour: int): int {
    if row.dayOfWeek == dow && row.hourly.Some? && 0 <= hour < |row.hourly.value| && hour < Hours
    then row.hourly.value[hour].GetOr(0)
    else 0
  }

  /** The count of bucket (dow, hour) over `rows`. */
  function HourTotal(rows: seq<AggregateRow>, dow: int, hour: int): int
    decreases |rows|
  {
    if |rows| == 0 then 0
    else HourTotal(rows[..|rows| - 1], dow, hour) + Contribution(rows[|rows| - 1], dow, hour)
  }

  /** The accumulation loop over one row: buckets (dayOfWeek, 0..min(len, 24)) grow by the
      row's values. */
  method AddRow(buckets: map<(int, int), int>, row: AggregateRow) returns (b: map<(int, int), int>)
    ensures forall d, h :: Get(b, (d, h)) == Get(buckets, (d, h)) + Contribution(row, d, h)
  {
    b := buckets;
    if row.hourly.None? {
      return;
    }
    var hourly := row.hourly.value;
    var hour := 0;
    while hour < |hourly| && hour < Hours
      invariant 0 <= hour <= Hours
      invariant forall d, h :: Get(b, (d, h)) ==
                  Get(buckets, (d, h)) + (if h < hour then Contribution(row, d, h) else 0)
    {
      b := Add(b, (row.dayOfWeek, hour), hourly[hour].GetOr(0));
      hour := hour + 1;
    }
  }

  /** The `buckets` map after the row loop. */
  method Accumulate(rows: seq<AggregateRow>) returns (buckets: map<(int, int), int>)
    ensures forall d, h :: Get(buckets, (d, h)) == HourTotal(rows, d, h)
  {
    buckets := map[];
    var i := 0;
    while i < |rows|
      invariant 0 <= i <= |rows|
      invariant forall d, h :: Get(buckets, (d, h)) == HourTotal(rows[..i], d, h)
    {
      assert rows[..i + 1][..i] == rows[..i];
      buckets := AddRow(buckets, rows[i]);
      i := i + 1;
    }
    assert rows[..|rows|] == rows;
  }

  /** `getHourlyHeatmap`: the full grid, ordered by day of week and then by hour, each entry
      holding its bucket's total. */
  method GetHourlyHeatmap(queryError: Option<DbError>, data: Option<seq<AggregateRow>>) returns (r: ServiceResult<seq<HourlyHeatmapEntry>>)
    ensures queryError.Some? ==> r == DbFailure("QUERY_FAILED", "Failed to get heatmap data", queryError.value)
    ensures queryError.None? ==> r.Success? && |r.data| == Days * Hours
    ensures queryError.None? ==>
              forall d, h :: 0 <= d < Days && 0 <= h < Hours ==>
                r.data[d * Hours + h] == HourlyHeatmapEntry(d, h, HourTotal(data.GetOr([]), d, h))
  {
    if queryError.Some? {
      return DbFailure("QUERY_FAILED", "Failed to get heatmap data", queryError.value);
    }
    var rows := data.GetOr([]);
    var buckets := Accumulate(rows);
    var entries: seq<HourlyHeatmapEntry> := [];
    var dow := 0;
    while dow < Days
      invariant 0 <= dow <= Days && |entries| == dow * Hours
      invariant forall d, h :: 0 <= d < dow && 0 <= h < Hours ==>
                  entries[d * Hours + h] == HourlyHeatmapEntry(d, h, HourTotal(rows, d, h))
    {
      var hour := 0;
      while hour < Hours
        invariant 0 <= hour <= Hours && |entries| == dow * Hours + hour
        invariant forall d, h :: 0 <= d < dow && 0 <= h < Hours ==>
                    entries[d * Hours + h] == HourlyHeatmapEntry(d, h, HourTotal(rows, d, h))
        invariant forall h :: 0 <= h < hour ==>
                    entries[dow * Hours + h] == HourlyHeatmapEntry(dow, h, HourTotal(rows, dow, h))
      {
        entries := entries + [HourlyHeatmapEntry(dow, hour, Get(buckets, (dow, hour)))];
        hour := hour + 1;
      }
      dow := dow + 1;
    }
    r := Success(entries);
  }

  /** Every grid position holds exactly one (dow, hour) pair, and positions follow
      day-then-hour order. */
  lemma GridLayout(d1: int, h1: int, d2: int, h2: int)
    requires 0 <= d1 < Days && 0 <= h1 < Hours && 0 <= d2 < Days && 0 <= h2 < Hours
    ensures 0 <= d1 * Hours + h1 < Days * Hours
    ensures d1 * Hours + h1 < d2 * Hours + h2 <==> d1 < d2 || (d1 == d2 && h1 < h2)
  {
  }

  /** The sum of a row's first `n` hourly values (null as 0), for hours below 24. */
  function RowSum(row: AggregateRow, dow: int, n: nat): int
    decreases n
  {
    if n == 0 then 0 else RowSum(row, dow, n - 1) + Contribution(row, dow, n - 1)
  }

  /** The sum of the first `n` buckets of day `dow`. */
  function DayTotal(rows: seq<AggregateRow>, dow: int, n: nat): int
    decreases n
  {
    if n == 0 then 0 else DayTotal(rows, dow, n - 1) + HourTotal(rows, dow, n - 1)
  }

  /** The day's rows are summed once each. */
  function RowsSum(rows: seq<AggregateRow>, dow: int): int
    decreases |rows|
  {
    if |rows| == 0 then 0 else RowsSum(rows[..|rows| - 1], dow) + RowSum(rows[|rows| - 1], dow, Hours)
  }

  lemma {:induction false} DayTotalSplit(rows: seq<AggregateRow>, dow: int, n: nat)
    requires |rows| > 0
    ensures DayTotal(rows, dow, n) == DayTotal(rows[..|rows| - 1], dow, n) + RowSum(rows[|rows| - 1], dow, n)
    decreases n
  {
    if n > 0 {
      DayTotalSplit(rows, dow, n - 1);
    }
  }

  /** Nothing is lost or counted twice: a day's 24 buckets add up to the sum, over that
      day's rows, of their first 24 hourly values. */
  lemma {:induction false} DayTotalIsRowsSum(rows: seq<AggregateRow>, dow: int)
    ensures DayTotal(rows, dow, Hours) == RowsSum(rows, dow)
    decreases |rows|
  {
    if |rows| == 0 {
      EmptyDay(dow, Hours);
    } else {
      DayTotalSplit(rows, dow, Hours);
      DayTotalIsRowsSum(rows[..|rows| - 1], dow);
    }
  }

  lemma {:induction false} EmptyDay(dow: int, n: nat)
    ensures DayTotal([], dow, n) == 0
    decreases n
  {
    if n > 0 {
      EmptyDay(dow, n - 1);
    }
  }

  /** A row that is not an array, or belongs to another day, changes no bucket of `dow`. */
  lemma SkippedRow(rows: seq<AggregateRow>, row: AggregateRow, dow: int, hour: int)
    requires row.hourly.None? || row.dayOfWeek != dow || hour >= Hours
    ensures HourTotal(rows + [row], dow, hour) == HourTotal(rows, dow, hour)
  {
    assert (rows + [row])[..|rows|] == rows;
  }
}
