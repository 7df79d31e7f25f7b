/** A load of the application after its start-up rollover: the user's
    handlers run one after another against the one store, all with the same
    clock reading. These lemmas state what holds of every such run. */
module Sessions {
  import opened Records
  import opened Gamification
  import opened Reconcile

  /** A handler invocation the user can trigger during a load. */
  datatype Handler =
    | SaveSettings(newSettings: UserSettings, confirmed: bool)
    | ResetApp(confirmed: bool)
    | CompleteSetup(initial: UserSettings)
    | RescueQuiz(score: nat, total: nat)

  function Step(s: Snapshot, h: Handler, today: Day, weekStart: Instant): Snapshot {
    match h
    case SaveSettings(newSettings, confirmed) => SettingsSaved(s, newSettings, confirmed)
    case ResetApp(confirmed) => ResetState(s, confirmed, today, weekStart)
    case CompleteSetup(initial) => SetupCommitted(s, initial)
    case RescueQuiz(score, total) => RescueApplied(s, score, total, today)
  }

  function Run(s: Snapshot, hs: seq<Handler>, today: Day, weekStart: Instant): Snapshot
    decreases |hs|
  {
    if hs == [] then s else Run(Step(s, hs[0], today, weekStart), hs[1..], today, weekStart)
  }

  /** A handler that can wipe the streak: a save answered yes or a confirmed
      reset. A save that keeps the level shows no prompt and is written with
      `confirmed` false. */
  predicate Destructive(h: Handler) {
    (h.SaveSettings? && h.confirmed) || (h.ResetApp? && h.confirmed)
  }

  lemma StepKeepsInvariants(s: Snapshot, h: Handler, today: Day, weekStart: Instant)
    requires Valid(s) && Reconciled(s, today, weekStart)
    ensures Valid(Step(s, h, today, weekStart)) && Reconciled(Step(s, h, today, weekStart), today, weekStart)
  {
  }

  /** No run of handlers breaks the stats invariant or un-reconciles the counters. */
  lemma {:induction false} RunKeepsInvariants(s: Snapshot, hs: seq<Handler>, today: Day, weekStart: Instant)
    requires Valid(s) && Reconciled(s, today, weekStart)
    ensures Valid(Run(s, hs, today, weekStart)) && Reconciled(Run(s, hs, today, weekStart), today, weekStart)
    decreases |hs|
  {
    if hs != [] {
      StepKeepsInvariants(s, hs[0], today, weekStart);
      RunKeepsInvariants(Step(s, hs[0], today, weekStart), hs[1..], today, weekStart);
    }
  }

  lemma StepCommutesWithRollover(s: Snapshot, h: Handler, today: Day, weekStart: Instant)
    ensures RolledOver(Step(s, h, today, weekStart), today, weekStart) ==
            Step(RolledOver(s, today, weekStart), h, today, weekStart)
  {
  }

  /** The handlers never read or write the two counters except through a
      reset, so rolling over before a run or after it gives the same store. */
  lemma {:induction false} RunCommutesWithRollover(s: Snapshot, hs: seq<Handler>, today: Day, weekStart: Instant)
    ensures RolledOver(Run(s, hs, today, weekStart), today, weekStart) ==
            Run(RolledOver(s, today, weekStart), hs, today, weekStart)
    decreases |hs|
  {
    if hs != [] {
      StepCommutesWithRollover(s, hs[0], today, weekStart);
      RunCommutesWithRollover(Step(s, hs[0], today, weekStart), hs[1..], today, weekStart);
    }
  }

  /** Saves that keep the exam level change nothing but the settings. */
  lemma {:induction false} SameLevelSavesKeepProgress(s: Snapshot, hs: seq<Handler>, today: Day, weekStart: Instant)
    requires forall i :: 0 <= i < |hs| ==> hs[i].SaveSettings? && hs[i].newSettings.level == s.settings.level
    ensures Run(s, hs, today, weekStart).(settings := s.settings) == s
    ensures Run(s, hs, today, weekStart).settings.level == s.settings.level
    decreases |hs|
  {
    if hs != [] {
      var s' := Step(s, hs[0], today, weekStart);
      assert s' == s.(settings := hs[0].newSettings);
      SameLevelSavesKeepProgress(s', hs[1..], today, weekStart);
    }
  }

  /** Without a save answered yes or a confirmed reset, no run of handlers clears
      the streak or touches xp and gamification level: the stats stay as
      they were or are revived at 1 from today. */
  lemma {:induction false} StreakNeverSilentlyCleared(s: Snapshot, hs: seq<Handler>, today: Day, weekStart: Instant)
    requires forall i :: 0 <= i < |hs| ==> !Destructive(hs[i])
    ensures var g := Run(s, hs, today, weekStart).gamificationStats;
            g.xp == s.gamificationStats.xp && g.level == s.gamificationStats.level &&
            (g == s.gamificationStats || (g.streak == 1 && g.lastStudiedDate == On(today)))
    decreases |hs|
  {
    if hs != [] {
      StreakNeverSilentlyCleared(Step(s, hs[0], today, weekStart), hs[1..], today, weekStart);
    }
  }
}
