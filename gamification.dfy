/** The streak lifecycle: break detection at load, the rescue quiz's pass
    rule, the revival it grants, and the rescue offer's state machine. */
module Gamification {
  import opened Records

  /** The load-time break condition: a positive streak whose last credited
      day is set and is neither today nor yesterday. */
  predicate BreakDetected(g: GamificationStats, today: Day)
    ensures BreakDetected(g, today) ==>
              g.streak > 0 && g.lastStudiedDate.On? &&
              (g.lastStudiedDate.day < today - 1 || g.lastStudiedDate.day > today)
  {
    g.streak > 0 && g.lastStudiedDate.On? &&
    g.lastStudiedDate.day != today && g.lastStudiedDate.day != today - 1
  }

  /** A streak credited today or yesterday is never reported broken, and a
      broken one is exactly a live streak whose last day lies outside that window. */
  lemma BreakDetectedIff(g: GamificationStats, today: Day)
    requires StatsValid(g)
    ensures BreakDetected(g, today) <==>
              g.streak > 0 &&
              (g.lastStudiedDate.day < today - 1 || g.lastStudiedDate.day > today)
  {
  }

  /** The smallest score that passes a quiz of `total` questions: the ceiling
      of 60% of `total`, in integer arithmetic. */
  function PassThreshold(total: nat): (t: nat)
    ensures 5 * t >= 3 * total
    ensures 5 * (t - 1) < 3 * total
  {
    (3 * total + 4) / 5
  }

  /** The rescue quiz's pass rule: the score reaches the threshold, which is
      the same as answering at least 60% of the questions correctly. */
  predicate Passed(score: nat, total: nat)
    ensures Passed(score, total) <==> 5 * score >= 3 * total
  {
    score >= PassThreshold(total)
  }

  /** Six out of ten passes; five out of ten does not. */
  lemma SixOfTenPasses()
    ensures Passed(6, 10) && !Passed(5, 10)
  {
  }

  /** The stats after a rescue quiz scored `score` out of `total` on day
      `today`: a pass revives the streak at 1 from today; a fail changes nothing. */
  function Revived(g: GamificationStats, score: nat, total: nat, today: Day): (r: GamificationStats)
    ensures r.xp == g.xp && r.level == g.level
    ensures Passed(score, total) ==> r.streak == 1 && r.lastStudiedDate == On(today)
    ensures !Passed(score, total) ==> r == g
    ensures Passed(score, total) ==> !BreakDetected(r, today) && !BreakDetected(r, today + 1)
    ensures StatsValid(g) ==> StatsValid(r)
  {
    if Passed(score, total) then g.(streak := 1, lastStudiedDate := On(today)) else g
  }

  /** Whether the rescue offer is not yet made this load, open, or dismissed. */
  datatype RescueState = Idle | Offered | Resolved

  /** The load-time transition: an idle offer opens when the stats show a break. */
  function Offer(st: RescueState, g: GamificationStats, today: Day): (r: RescueState)
    ensures r == Offered <==> st == Offered || (st == Idle && BreakDetected(g, today))
    ensures r == Idle <==> st == Idle && !BreakDetected(g, today)
    ensures st == Resolved ==> r == Resolved
  {
    if st == Idle && BreakDetected(g, today) then Offered else st
  }

  /** Offering again within the same load changes nothing. */
  lemma OfferIdempotent(st: RescueState, g: GamificationStats, today: Day)
    ensures Offer(Offer(st, g, today), g, today) == Offer(st, g, today)
  {
  }
}
