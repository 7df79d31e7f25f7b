/** The App's handlers as functions from the store's value before to its
    value after: the load-time rollover, the settings save with its
    level-change cascade, the full reset, the first-time setup commit and
    the rescue quiz's outcome. */
module Reconcile {
  import opened Records
  import opened Gamification

  /** The weekly counter after the load-time check: a counter from a week
      that began before the current one restarts at zero for this week; one
      from this week or a later one is kept as it is. */
  function RolledWeek(c: ChaptersCompleted, weekStart: Instant): (r: ChaptersCompleted)
    ensures r.startDate >= weekStart
    ensures r.startDate >= c.startDate
    ensures c.startDate >= weekStart ==> r == c
    ensures c.startDate < weekStart ==> r == ChaptersCompleted(0, weekStart)
  {
    if c.startDate < weekStart then ChaptersCompleted(0, weekStart) else c
  }

  /** The daily counter after the load-time check: a counter for any other
      day, earlier or later, restarts at zero for today. */
  function RolledDay(h: HoursStudied, today: Day): (r: HoursStudied)
    ensures r.date == today
    ensures h.date == today ==> r == h
    ensures h.date != today ==> r.hours == 0.0
  {
    if h.date != today then HoursStudied(0.0, today) else h
  }

  /** The load-time rollover: afterwards both counters are reconciled with
      the clock, an already reconciled store is left alone, and no key other
      than the two counters changes. */
  function RolledOver(s: Snapshot, today: Day, weekStart: Instant): (r: Snapshot)
    ensures Reconciled(r, today, weekStart)
    ensures Reconciled(s, today, weekStart) ==> r == s
    ensures r.chaptersCompletedThisWeek == RolledWeek(s.chaptersCompletedThisWeek, weekStart)
    ensures r.hoursStudiedToday == RolledDay(s.hoursStudiedToday, today)
    ensures r.(chaptersCompletedThisWeek := s.chaptersCompletedThisWeek,
               hoursStudiedToday := s.hoursStudiedToday) == s
    ensures Valid(s) ==> Valid(r)
  {
    s.(chaptersCompletedThisWeek := RolledWeek(s.chaptersCompletedThisWeek, weekStart),
       hoursStudiedToday := RolledDay(s.hoursStudiedToday, today))
  }

  /** For a fixed clock, rolling over twice is rolling over once. */
  lemma RolloverIdempotent(s: Snapshot, today: Day, weekStart: Instant)
    ensures RolledOver(RolledOver(s, today, weekStart), today, weekStart) == RolledOver(s, today, weekStart)
  {
  }

  /** The seven progress keys at their defaults, every other key kept. */
  function ClearedProgress(s: Snapshot): Snapshot {
    s.(progress := map[], gamificationStats := DEFAULT_STATS, mockTests := [],
       completionHistory := [], reminders := [], quizHistory := [], doubts := [])
  }

  /** Saving settings. When the exam level is unchanged only the settings are
      written. When it changes, a confirmed save clears the seven progress
      keys and writes the settings, leaving the counters and the setup flag;
      a declined one writes nothing at all. */
  function SettingsSaved(s: Snapshot, newSettings: UserSettings, confirmed: bool): (r: Snapshot)
    ensures newSettings.level == s.settings.level ==> r == s.(settings := newSettings)
    ensures newSettings.level != s.settings.level && !confirmed ==> r == s
    ensures newSettings.level != s.settings.level && confirmed ==>
              r.settings == newSettings && ProgressCleared(r) &&
              r.isSetupComplete == s.isSetupComplete &&
              r.chaptersCompletedThisWeek == s.chaptersCompletedThisWeek &&
              r.hoursStudiedToday == s.hoursStudiedToday
    ensures r.settings == s.settings || r.settings == newSettings
    ensures Valid(s) ==> Valid(r)
  {
    if newSettings.level != s.settings.level then
      if confirmed then ClearedProgress(s).(settings := newSettings) else s
    else
      s.(settings := newSettings)
  }

  /** A save with an unchanged level never clears progress, history or stats. */
  lemma UnchangedLevelKeepsProgress(s: Snapshot, newSettings: UserSettings, confirmed: bool)
    requires newSettings.level == s.settings.level
    ensures SettingsSaved(s, newSettings, confirmed).(settings := s.settings) == s
  {
  }

  /** The full data reset. Once confirmed, every key is cleared and the
      application reloads, so each key reads as its default, with the
      counters' defaults taken from the clock at reload; declined, nothing
      changes. */
  function ResetState(s: Snapshot, confirmed: bool, today: Day, weekStart: Instant): (r: Snapshot)
    ensures confirmed ==>
              !r.isSetupComplete && r.settings == DEFAULT_SETTINGS && ProgressCleared(r) &&
              r.chaptersCompletedThisWeek == ChaptersCompleted(0, weekStart) &&
              r.hoursStudiedToday == HoursStudied(0.0, today)
    ensures confirmed ==> Valid(r) && Reconciled(r, today, weekStart)
    ensures !confirmed ==> r == s
  {
    if confirmed then Defaults(today, weekStart) else s
  }

  /** The first-time setup commit: the chosen settings are written and setup
      is marked complete; nothing else changes. */
  function SetupCommitted(s: Snapshot, initial: UserSettings): (r: Snapshot)
    ensures r.settings == initial && r.isSetupComplete
    ensures r.(settings := s.settings, isSetupComplete := s.isSetupComplete) == s
  {
    s.(settings := initial, isSetupComplete := true)
  }

  /** The rescue quiz's outcome: only the stats key may change, and only as
      the revival rule says. */
  function RescueApplied(s: Snapshot, score: nat, total: nat, today: Day): (r: Snapshot)
    ensures r.gamificationStats == Revived(s.gamificationStats, score, total, today)
    ensures r.(gamificationStats := s.gamificationStats) == s
    ensures !Passed(score, total) ==> r == s
    ensures Valid(s) ==> Valid(r)
  {
    s.(gamificationStats := Revived(s.gamificationStats, score, total, today))
  }
}
