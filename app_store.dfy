/** The App component's state as objects: the store whose fields are the
    persisted keys, updated in place by the handlers, and the per-load
    session that runs the start-up effects once and holds the rescue offer. */
module AppStore {
  import opened Records
  import opened Gamification
  import opened Reconcile

  class Store {
    var isSetupComplete: bool
    var settings: UserSettings
    var gamificationStats: GamificationStats
    var mockTests: seq<Entry>
    var progress: map<string, Entry>
    var completionHistory: seq<Entry>
    var reminders: seq<Entry>
    var quizHistory: seq<Entry>
    var doubts: seq<Entry>
    var chaptersCompletedThisWeek: ChaptersCompleted
    var hoursStudiedToday: HoursStudied

    /** The value of every key, as the next read would return it. */
    function Snap(): Snapshot
      reads this
    {
      Snapshot(isSetupComplete, settings, gamificationStats, mockTests, progress,
               completionHistory, reminders, quizHistory, doubts,
               chaptersCompletedThisWeek, hoursStudiedToday)
    }

    /** A store none of whose keys was ever written: every read gives the default. */
    constructor (today: Day, weekStart: Instant)
      ensures Snap() == Defaults(today, weekStart)
      ensures Valid(Snap()) && Reconciled(Snap(), today, weekStart)
    {
      isSetupComplete := false;
      settings := DEFAULT_SETTINGS;
      gamificationStats := DEFAULT_STATS;
      mockTests := [];
      progress := map[];
      completionHistory := [];
      reminders := [];
      quizHistory := [];
      doubts := [];
      chaptersCompletedThisWeek := ChaptersCompleted(0, weekStart);
      hoursStudiedToday := HoursStudied(0.0, today);
    }

    /** The load-time check of both time-windowed counters. */
    method Rollover(today: Day, weekStart: Instant)
      modifies this
      ensures Snap() == RolledOver(old(Snap()), today, weekStart)
      ensures Reconciled(Snap(), today, weekStart)
      ensures unchanged(this`settings, this`gamificationStats, this`isSetupComplete)
    {
      if chaptersCompletedThisWeek.startDate < weekStart {
        chaptersCompletedThisWeek := ChaptersCompleted(0, weekStart);
      }
      if hoursStudiedToday.date != today {
        hoursStudiedToday := HoursStudied(0.0, today);
      }
    }

    /** Saving the settings form; `confirmed` is the user's answer to the
        prompt shown when the exam level changes. */
    method SaveSettings(newSettings: UserSettings, confirmed: bool)
      modifies this
      ensures Snap() == SettingsSaved(old(Snap()), newSettings, confirmed)
      ensures newSettings.level != old(settings.level) && !confirmed ==> unchanged(this)
    {
      var levelChanged := newSettings.level != settings.level;
      if levelChanged {
        if confirmed {
          progress := map[];
          gamificationStats := DEFAULT_STATS;
          mockTests := [];
          completionHistory := [];
          reminders := [];
          quizHistory := [];
          doubts := [];
          settings := newSettings;
        }
      } else {
        settings := newSettings;
      }
    }

    /** The full data reset: once confirmed, every key is cleared and the next
        load (at `today`, `weekStart`) reads every key as its default. */
    method ResetApp(confirmed: bool, today: Day, weekStart: Instant)
      modifies this
      ensures Snap() == ResetState(old(Snap()), confirmed, today, weekStart)
      ensures confirmed ==> Snap() == Defaults(today, weekStart)
      ensures !confirmed ==> unchanged(this)
    {
      if confirmed {
        isSetupComplete := false;
        settings := DEFAULT_SETTINGS;
        gamificationStats := DEFAULT_STATS;
        mockTests := [];
        progress := map[];
        completionHistory := [];
        reminders := [];
        quizHistory := [];
        doubts := [];
        chaptersCompletedThisWeek := ChaptersCompleted(0, weekStart);
        hoursStudiedToday := HoursStudied(0.0, today);
      }
    }

    /** The first-time setup form's commit. */
    method CompleteSetup(initial: UserSettings)
      modifies this
      ensures Snap() == SetupCommitted(old(Snap()), initial)
    {
      settings := initial;
      isSetupComplete := true;
    }

    /** The rescue quiz's outcome: a pass revives the streak at 1 from
        `today`; a fail writes nothing. */
    method ApplyRescue(score: nat, total: nat, today: Day)
      modifies this
      ensures Snap() == RescueApplied(old(Snap()), score, total, today)
      ensures !Passed(score, total) ==> unchanged(this)
    {
      if Passed(score, total) {
        gamificationStats := gamificationStats.(streak := 1, lastStudiedDate := On(today));
      }
    }
  }

  /** One load of the application over a store. */
  class Session {
    const store: Store
    var rescue: RescueState
    var started: bool

    /** Before the start-up effects run, no offer has been made. */
    predicate Valid()
      reads this
    {
      !started ==> rescue == Idle
    }

    constructor (store: Store)
      ensures Valid()
      ensures this.store == store && rescue == Idle && !started
    {
      this.store := store;
      rescue := Idle;
      started := false;
    }

    /** The two start-up effects, run once per load: the counter rollover,
        then the break check that may open the rescue offer. The check reads
        the stats and writes none. */
    method Start(today: Day, weekStart: Instant)
      requires Valid()
      modifies this, store
      ensures Valid() && started
      ensures old(started) ==> unchanged(store) && rescue == old(rescue)
      ensures !old(started) ==>
                store.Snap() == RolledOver(old(store.Snap()), today, weekStart) &&
                rescue == Offer(Idle, old(store.gamificationStats), today)
      ensures store.gamificationStats == old(store.gamificationStats)
    {
      if !started {
        store.Rollover(today, weekStart);
        rescue := Offer(rescue, store.gamificationStats, today);
        started := true;
      }
    }

    /** The rescue quiz reporting `score` out of `total` on day `today`. A
        pass revives the streak at 1; a fail writes nothing. The offer stays
        open until it is dismissed. */
    method RescueResult(score: nat, total: nat, today: Day)
      requires Valid() && rescue == Offered
      modifies store
      ensures Valid() && rescue == Offered
      ensures store.Snap() == RescueApplied(old(store.Snap()), score, total, today)
      ensures !Passed(score, total) ==> unchanged(store)
    {
      store.ApplyRescue(score, total, today);
    }

    /** The full data reset from the profile view. Once confirmed, every key
        is cleared and the page reloads: the current load ends, so the rescue
        offer is gone and the start-up effects run again on the next load. */
    method ResetApp(confirmed: bool, today: Day, weekStart: Instant)
      requires Valid()
      modifies this, store
      ensures Valid()
      ensures store.Snap() == ResetState(old(store.Snap()), confirmed, today, weekStart)
      ensures confirmed ==> rescue == Idle && !started
      ensures !confirmed ==> unchanged(this) && unchanged(store)
    {
      store.ResetApp(confirmed, today, weekStart);
      if confirmed {
        rescue := Idle;
        started := false;
      }
    }

    /** Dismissing the rescue offer: it is resolved for the rest of the load
        and no key is written. */
    method Close()
      requires Valid() && rescue == Offered
      modifies this
      ensures Valid() && rescue == Resolved && started == old(started)
    {
      rescue := Resolved;
    }
  }
}
