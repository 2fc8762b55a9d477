/** Analytics records (src/types/analytics.ts). */
module AnalyticsTypes {
  import opened Wrappers

  /** One row of the `sessions` rollup table. */
  datatype SessionSummary = SessionSummary(
    id: string,
    sessionId: string,
    userId: string,
    startedAt: string,
    endedAt: Option<string>,
    durationMs: Option<int>,
    eventCount: Option<int>,
    toolCount: Option<int>,
    stopReason: Option<string>,
    gitBranch: Option<string>,
    workingDirectory: Option<string>)

  datatype DailyActivity = DailyActivity(date: string, sessions: int, events: int, toolUses: int)

  datatype ToolUsageStat = ToolUsageStat(
    toolName: string, count: int, avgDurationMs: Option<real>, p50DurationMs: Option<real>,
    p99DurationMs: Option<real>, trend: int)

  datatype HourlyHeatmapEntry = HourlyHeatmapEntry(dayOfWeek: int, hour: int, count: int)
}
