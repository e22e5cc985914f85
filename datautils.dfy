/** The constants and the build-age table shared by the scripts (datautils.py). */
module DataUtils {

  /** `global_defaults`: how many days back each kind of script looks by default. */
  const GlobalDefaults: map<string, int> := map[
    "backlog_days" := 7,
    "explosive_backlog_days" := 20,
    "socorrodata_backlog_days" := 15
  ]

  /**
   * The length in days of each duration `getMaxBuildAge` can return, as the
   * date helper that subtracts it from a day reads it.
   */
  const AgeDays: map<string, nat> := map[
    "12 weeks" := 84,
    "4 weeks" := 28,
    "9 weeks" := 63,
    "2 weeks" := 14,
    "1 weeks" := 7,
    "1 year" := 365
  ]

  /** The channels with a window of their own; any other name falls through. */
  const KnownChannels: set<string> := {"release", "beta", "aurora", "nightly"}

  /**
   * `getMaxBuildAge`: how old a build (or the start of a version) may be on a
   * channel. `versionOverall` widens the pre-release windows when resolving
   * the whole version set of a run; it defaults to false.
   */
  function MaxBuildAge(channel: string, versionOverall: bool := false): (age: string)
    ensures age in AgeDays
    ensures AgeDays[age] <= AgeDays["1 year"]
    ensures channel !in KnownChannels <==> age == "1 year"
  {
    if channel == "release" then "12 weeks"
    else if channel == "beta" then "4 weeks"
    else if channel == "aurora" then
      if versionOverall then "9 weeks" else "2 weeks"
    else if channel == "nightly" then
      if versionOverall then "9 weeks" else "1 weeks"
    else "1 year"
  }

  /** Release and beta windows do not depend on the flag. */
  lemma StableChannelWindows(versionOverall: bool)
    ensures MaxBuildAge("release", versionOverall) == "12 weeks"
    ensures MaxBuildAge("beta", versionOverall) == "4 weeks"
  {
  }

  /** Aurora and nightly look back nine weeks for the overall version set, less otherwise. */
  lemma PreReleaseWindows()
    ensures MaxBuildAge("aurora", true) == "9 weeks" && MaxBuildAge("aurora") == "2 weeks"
    ensures MaxBuildAge("nightly", true) == "9 weeks" && MaxBuildAge("nightly") == "1 weeks"
  {
  }

  /**
   * The catch-all answer is at least as long as every other one: the scripts
   * rely on this when they compute the earliest start date any channel needs.
   */
  lemma CatchAllIsLongest(channel: string, versionOverall: bool, unknown: string, flag: bool)
    requires unknown !in KnownChannels
    ensures AgeDays[MaxBuildAge(channel, versionOverall)] <= AgeDays[MaxBuildAge(unknown, flag)]
  {
  }

  /** Setting `versionOverall` never shortens a channel's window. */
  lemma OverallNeverShorter(channel: string)
    ensures AgeDays[MaxBuildAge(channel)] <= AgeDays[MaxBuildAge(channel, true)]
    ensures MaxBuildAge(channel) == MaxBuildAge(channel, false)
  {
  }

  lemma DefaultBacklogs()
    ensures GlobalDefaults.Keys == {"backlog_days", "explosive_backlog_days", "socorrodata_backlog_days"}
    ensures GlobalDefaults["backlog_days"] == 7
    ensures GlobalDefaults["explosive_backlog_days"] == 20
    ensures GlobalDefaults["socorrodata_backlog_days"] == 15
  {
  }
}
