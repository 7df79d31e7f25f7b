/** The persisted keys of the study tracker, their value shapes, their
    documented defaults and the invariants the App's handlers keep. */
module Records {

  /** A calendar day as an ordinal number; two days are the same day exactly
      when their `toDateString` renderings are equal. Yesterday is `d - 1`. */
  type Day = int

  /** An instant in milliseconds since the epoch, as an ISO timestamp denotes. */
  type Instant = int

  /** One element of a stored collection (mock test, completion, reminder,
      quiz attempt, doubt, chapter progress). This core never looks inside
      one, so it is kept as its serialised text. */
  type Entry = string

  /** The `userSettings` key. `level` and `focusedGroup` are string-literal
      unions in the application; they are kept as strings here. */
  datatype UserSettings = UserSettings(
    name: string,
    level: string,
    weeklyChapterGoal: int,
    dailyHoursGoal: real,
    revisions: int,
    focusedGroup: string,
    examAttempt: string)

  const DEFAULT_SETTINGS := UserSettings("Student", "intermediate", 10, 4.0, 3, "both", "jan26")

  /** The `lastStudiedDate` field: the empty string, or a day. */
  datatype LastStudied = Never | On(day: Day)

  /** The `gamificationStats` key (xp, gamification level, streak, last day credited). */
  datatype GamificationStats = GamificationStats(xp: int, level: int, streak: int, lastStudiedDate: LastStudied)

  const DEFAULT_STATS := GamificationStats(0, 1, 0, Never)

  /** The `chaptersCompletedThisWeek` key: a counter and the start of the week it counts. */
  datatype ChaptersCompleted = ChaptersCompleted(count: int, startDate: Instant)

  /** The `hoursStudiedToday` key: a counter and the day it counts. */
  datatype HoursStudied = HoursStudied(hours: real, date: Day)

  /** The value of every persisted key at one moment. */
  datatype Snapshot = Snapshot(
    isSetupComplete: bool,
    settings: UserSettings,
    gamificationStats: GamificationStats,
    mockTests: seq<Entry>,
    progress: map<string, Entry>,
    completionHistory: seq<Entry>,
    reminders: seq<Entry>,
    quizHistory: seq<Entry>,
    doubts: seq<Entry>,
    chaptersCompletedThisWeek: ChaptersCompleted,
    hoursStudiedToday: HoursStudied)

  /** What every key reads as when it was never written. The two counters'
      defaults are computed from the clock when the key is first read. */
  function Defaults(today: Day, weekStart: Instant): (r: Snapshot)
    ensures !r.isSetupComplete && r.settings == DEFAULT_SETTINGS && ProgressCleared(r)
    ensures r.chaptersCompletedThisWeek == ChaptersCompleted(0, weekStart)
    ensures r.hoursStudiedToday == HoursStudied(0.0, today)
    ensures Valid(r) && Reconciled(r, today, weekStart)
  {
    Snapshot(false, DEFAULT_SETTINGS, DEFAULT_STATS, [], map[], [], [], [], [],
             ChaptersCompleted(0, weekStart), HoursStudied(0.0, today))
  }

  /** The seven keys a confirmed exam-level change wipes all read as their defaults. */
  predicate ProgressCleared(s: Snapshot) {
    s.progress == map[] && s.gamificationStats == DEFAULT_STATS && s.mockTests == [] &&
    s.completionHistory == [] && s.reminders == [] && s.quizHistory == [] && s.doubts == []
  }

  /** The stats invariant: counters in range, and a positive streak names the day last credited. */
  predicate StatsValid(g: GamificationStats) {
    g.xp >= 0 && g.level >= 1 && g.streak >= 0 && (g.streak > 0 ==> g.lastStudiedDate.On?)
  }

  predicate Valid(s: Snapshot) {
    StatsValid(s.gamificationStats) &&
    s.chaptersCompletedThisWeek.count >= 0 &&
    s.hoursStudiedToday.hours >= 0.0
  }

  /** Both time-windowed counters describe the current period: the daily one
      is today's, the weekly one is this week's or (never rewound) a later one. */
  predicate Reconciled(s: Snapshot, today: Day, weekStart: Instant) {
    s.hoursStudiedToday.date == today && s.chaptersCompletedThisWeek.startDate >= weekStart
  }
}
