# CA Prep Tracker: persistent state and streak lifecycle

This project models the state logic of the study tracker's root `App`
component in Dafny and proves what it guarantees. The component owns every
persisted key: the user's settings, the gamification stats (xp,
gamification level, streak, last day studied), the progress and history
collections, the weekly chapter counter, the daily hours counter and the
first-time-setup flag. Its handlers do the following:

- **Load-time rollover.** A weekly counter whose `startDate` lies strictly
  before the current week's start restarts at zero for this week. A daily
  counter whose `date` differs from today, earlier or later, restarts at zero
  for today.
- **Streak-break check.** At load, a positive streak whose last day is set
  and is neither today nor yesterday opens the rescue offer. The check
  writes no stats.
- **Rescue quiz outcome.** A score of at least ⌈60% of the total⌉ revives the
  streak at 1 from today and keeps xp and level. A lower score, or dismissing
  the offer, writes nothing.
- **Settings save.** A change of exam level asks for confirmation. Confirmed,
  it clears progress, stats, mock tests, completion history, reminders, quiz
  history and doubts, then writes the settings. Declined, nothing is written.
  With an unchanged level only the settings are written.
- **Full reset.** Once confirmed, every key is cleared, so every key reads as
  its default again.
- **First-time setup commit.** The chosen settings are written and setup is
  marked complete.

Layout:

- `records.dfy` (module `Records`): the keys' value types, their defaults,
  the stats invariant (`Valid`) and the "counters are current" predicate
  (`Reconciled`).
- `gamification.dfy` (module `Gamification`): the break condition, the pass
  rule, the revival and the rescue offer's `Idle`/`Offered`/`Resolved` states.
- `reconcile.dfy` (module `Reconcile`): each handler as a function from the
  store's value before to its value after. These functions are the
  specification of the methods below.
- `sessions.dfy` (module `Sessions`): any sequence of handlers within one load.
  Lemmas proved by induction cover what holds across such a sequence.
- `app_store.dfy` (module `AppStore`): the class `Store`, whose fields are the
  persisted keys and whose methods overwrite them in place, and the class
  `Session`, which runs the start-up effects once per load and holds the
  rescue offer's state.

Time comes in as integers. A calendar day (`toDateString`) is a day number,
and yesterday is that number minus one. The week start and the weekly
counter's `startDate` are millisecond timestamps. The empty `lastStudiedDate`
is `Never`. The confirmation dialogs become a boolean parameter, and the
rescue quiz's result is a pair of naturals `(score, total)`.

Two behaviours of the code worth noting:

- The daily counter resets on any differing date: an earlier or a later date
  both reset it, because the code tests `!==`.
- Reporting a rescue result does not close the offer. Only dismissing it
  (`onClose`) moves the offer to `Resolved`. So `Session.RescueResult` leaves
  the state at `Offered`, and `Session.Close` resolves it.

## Model

| member | source | states |
|---|---|---|
| `Records.Defaults` | App.tsx:22-46 | every key at its documented default: setup not complete, the default settings, the seven progress keys cleared, the weekly counter exactly `{count: 0, startDate: weekStart}` and the daily one exactly `{hours: 0, date: today}`; this store satisfies the stats invariant and has both counters current |
| `Gamification.BreakDetected` | App.tsx:97 | the break condition: streak above 0, a last day that is set, and neither `today` nor `today - 1`; so a break is only reported for a live streak whose last day lies outside today and yesterday |
| `Gamification.BreakDetectedIff` | App.tsx:94-99 | for valid stats, a break is reported exactly when the streak is positive and its last day is earlier than yesterday or later than today; a streak credited today or yesterday is never broken |
| `Gamification.PassThreshold` | App.tsx:223 | the threshold is the least natural `t` with `5t >= 3·total`, that is ⌈0.6·total⌉ |
| `Gamification.Passed` | App.tsx:223 | the pass rule `score >= PassThreshold(total)`, proved to hold exactly when at least 60% of the answers are right (`5·score >= 3·total`) |
| `Gamification.SixOfTenPasses` | App.tsx:222-223 | 6/10 passes and 5/10 fails |
| `Gamification.Revived` | App.tsx:221-229 | xp and level are always kept; a pass sets streak 1 and last day today, after which no break is reported today or tomorrow; a fail returns the stats unchanged; the stats invariant is preserved |
| `Gamification.Offer` | App.tsx:92-100 | the offer opens exactly from `Idle` when a break is detected, stays as it was otherwise, and `Resolved` is final |
| `Gamification.OfferIdempotent` | App.tsx:93-98 | re-running the break check within a load does not change the offer state again |
| `Reconcile.RolledWeek` | App.tsx:54-57 | afterwards the counter's week is the current one or later and never rewinds; a counter from this week or a later one is kept unchanged; a stale one restarts at zero for this week, `{count: 0, startDate: weekStart}` |
| `Reconcile.RolledDay` | App.tsx:59-62 | afterwards the counter is today's; today's counter is kept; a counter for any other day, earlier or later, restarts at zero |
| `Reconcile.RolledOver` | App.tsx:53-63 | after the rollover both counters are current, an already current store is left alone, no key other than the two counters changes, and the invariant is preserved |
| `Reconcile.RolloverIdempotent` | App.tsx:53-63 | for a fixed clock, a second rollover changes nothing |
| `Reconcile.SettingsSaved` | App.tsx:65-82 | an unchanged level writes only the settings; a declined level change writes nothing; a confirmed one clears the seven progress keys to their defaults, writes the new settings and keeps the counters and the setup flag |
| `Reconcile.UnchangedLevelKeepsProgress` | App.tsx:78-79 | a save that keeps the level changes no key but the settings, whatever the confirmation |
| `Reconcile.ResetState` | App.tsx:84-89 | once confirmed, every key reads as its default (setup not complete, default settings, progress cleared, both counters at zero for the current period); declined, nothing changes |
| `Reconcile.SetupCommitted` | App.tsx:104-107 | the chosen settings are written, setup is marked complete, and no other key changes |
| `Reconcile.RescueApplied` | App.tsx:221-229 | only the stats key may change, exactly as `Revived` says; a fail changes nothing; the invariant is preserved |
| `Sessions.RunKeepsInvariants` | App.tsx:65-229 | after the rollover, no sequence of settings saves, resets, setup commits and rescue outcomes breaks the stats invariant or makes a counter stale |
| `Sessions.RunCommutesWithRollover` | App.tsx:53-63 | rolling the counters over before any sequence of handlers or after it gives the same store |
| `Sessions.SameLevelSavesKeepProgress` | App.tsx:78-79 | any sequence of settings saves that keep the exam level changes nothing but the settings, and the level stays as it was |
| `Sessions.StreakNeverSilentlyCleared` | App.tsx:65-89 | with no settings save answered yes and no confirmed reset, xp and level stay as they were, and the stats are either unchanged or revived at streak 1 from today; the streak is never cleared |
| `AppStore.Store.constructor` | App.tsx:22-46 | a store with no key written reads every key as its default |
| `AppStore.Store.Rollover` | App.tsx:53-63 | the fields become `RolledOver` of the old ones: both counters are current, and settings, stats and the setup flag are untouched |
| `AppStore.Store.SaveSettings` | App.tsx:65-82 | the fields become `SettingsSaved` of the old ones; a declined level change leaves the object unchanged |
| `AppStore.Store.ResetApp` | App.tsx:84-89 | once confirmed, the fields equal the defaults; declined, the object is unchanged |
| `AppStore.Store.CompleteSetup` | App.tsx:104-106 | the fields become `SetupCommitted` of the old ones |
| `AppStore.Store.ApplyRescue` | App.tsx:223-225 | the fields become `RescueApplied` of the old ones: a pass sets streak 1 and last day today, keeping xp and level; a fail leaves the object unchanged |
| `AppStore.Session.constructor` | App.tsx:26 | a new load starts with the rescue offer `Idle` and the start-up effects not yet run, and the session invariant (not started implies `Idle`) holds |
| `AppStore.Session.Start` | App.tsx:52-100 | keeps the session invariant; the first call rolls the store over and, from `Idle`, opens the offer exactly when the stats read at load show a break; later calls change nothing; stats are never written |
| `AppStore.Session.RescueResult` | App.tsx:221-229 | through `Store.ApplyRescue`, the store becomes `RescueApplied` of the old one; a fail leaves the store unchanged |
| `AppStore.Session.ResetApp` | App.tsx:84-89 | the store becomes `ResetState` of the old one; once confirmed, the reload ends the load, so the rescue offer is back at `Idle` and the start-up effects will run again; declined, nothing changes |
| `AppStore.Session.Close` | App.tsx:219 | dismissing the offer resolves it and writes no key |

## Left out

- Rendering, navigation (`handleViewChange`, page transitions), the theme
  toggle and the theme hook are presentation only.
- The child components are not part of this model: the dashboard, study and
  planner views, the focus timer, the reminder modal and the internals of the
  rescue quiz modal. They receive setters for most keys (App.tsx:181-183,
  214-215): `setSettings` (written without the level-change prompt),
  `setProgress`, `setGamificationStats`, `setMockTests`,
  `setCompletionHistory`, `setQuizHistory`, `setDoubts`, `setReminders`,
  `setChaptersCompletedThisWeek` and `setHoursStudiedToday`. They write those
  keys themselves, so how they add xp,
  change the gamification level and extend the streak is not modelled.
- Persistence by the local-storage hook is not modelled: JSON encoding, the
  fallback to defaults on a corrupt or unavailable store, and survival across
  reloads. The store is plain fields, and a full reset sets every field to its
  default. `ResetApp` stands for clearing local storage and reloading. The
  theme key, which the same clear also removes, is not part of this model.
- The clock (`Date`, `Date.now()`, `toDateString`, `getWeekStartDate`) is not
  part of this model. `today` and `weekStart` are inputs, and yesterday is
  `today - 1`. The daylight-saving edge of computing yesterday as "now minus
  86 400 000 ms" is not modelled.
- A `startDate` that does not parse as a date is not modelled. In JavaScript
  it compares as NaN and never triggers the weekly reset. Timestamps here are
  always integers.
- `Gamification.PassThreshold`: uses the integer ceiling `(3·total + 4) / 5`
  in place of the floating-point `Math.ceil(total * 0.6)`. It does not claim
  bit-exact agreement with the floating-point result.
- The confirmation prompts and the alerts are not modelled. A prompt is the
  `confirmed` parameter, and an alert carries no state.
- `level` and `focusedGroup` are string-literal unions in the application's
  type definitions, which are not part of this model. Here they are strings.
  The elements of the stored collections are opaque `Entry` values.
- Setup gating is not modelled. While setup is incomplete the component
  renders only the setup form (App.tsx:103-108), so the settings save, the
  reset and the rescue quiz cannot be reached then. The model allows every
  handler in every state, which only widens what its lemmas cover.
- `Sessions.Run` passes one clock reading to every handler of a load. The
  rescue handler in fact reads the clock when it is called (App.tsx:225), so a
  load that spans midnight is not modelled.
- `Sessions.Run` does not end the load at a confirmed reset. Later handlers in
  the same run act on the cleared store without a new start-up rollover or
  break check. This only adds runs the application cannot produce, so the
  lemmas over all runs still cover every real one. `AppStore.Session.ResetApp`
  does end the load.
