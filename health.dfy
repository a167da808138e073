/** The pure part of `getHealthScore` (lambda/src/handlers/health.ts): with no
    stored profile the answer is "not found"; otherwise the requirements of the
    profile, the score of the week's logs against them, and a display
    breakdown taken as fixed fractions of the overall score. */
module HealthHandler {
  import opened Wrappers
  import opened Types
  import opened NutritionUtils

  datatype Components = Components(calorieBalance: int, macroBalance: int, consistency: int, variety: int)

  datatype HealthScore = HealthScore(overall: int, components: Components, timestamp: string)

  /** The handler's two answers: 404 for a missing profile, 200 with a score. */
  datatype Outcome = ProfileNotFound | Scored(score: HealthScore)

  /** The displayed components: 40, 30, 20 and 10 per cent of `overall`,
      rounded. They depend on `overall` alone, not on the sub-scores it was
      blended from, and rounding can make them sum to one less or up to two
      more than `overall`. */
  function Breakdown(overall: int): (c: Components)
    ensures 0 <= overall <= 100 ==>
      && 0 <= c.calorieBalance <= 40 && 0 <= c.macroBalance <= 30
      && 0 <= c.consistency <= 20 && 0 <= c.variety <= 10
    ensures var o := overall as real;
      && o * 0.4 - 0.5 < c.calorieBalance as real <= o * 0.4 + 0.5
      && o * 0.3 - 0.5 < c.macroBalance as real <= o * 0.3 + 0.5
      && o * 0.2 - 0.5 < c.consistency as real <= o * 0.2 + 0.5
      && o * 0.1 - 0.5 < c.variety as real <= o * 0.1 + 0.5
    ensures overall - 1 <= c.calorieBalance + c.macroBalance + c.consistency + c.variety <= overall + 2
  {
    var o := overall as real;
    RoundWithin(o * 0.4, 0, 40);
    RoundWithin(o * 0.3, 0, 30);
    RoundWithin(o * 0.2, 0, 20);
    RoundWithin(o * 0.1, 0, 10);
    Components(Round(o * 0.4), Round(o * 0.3), Round(o * 0.2), Round(o * 0.1))
  }

  /** The neutral score of 50 is shown as 20, 15, 10 and 5. */
  lemma NeutralBreakdown()
    ensures Breakdown(50) == Components(20, 15, 10, 5)
  {
    RoundUnique(20.0, 20);
    RoundUnique(15.0, 15);
    RoundUnique(10.0, 10);
    RoundUnique(5.0, 5);
  }

  /** An overall score of 5 is shown as components summing to 6. */
  lemma BreakdownNeedNotSumToOverall()
    ensures Breakdown(5) == Components(2, 2, 1, 1)
  {
    RoundUnique(2.0, 2);
    RoundUnique(1.5, 2);
    RoundUnique(1.0, 1);
    RoundUnique(0.5, 1);
  }

  /** `getHealthScore` after the store reads: `profile` is the stored profile
      (absent when there is none), `logs` the caller's logs of the last seven
      days, `now` the current time as an ISO string. */
  function GetHealthScore(profile: Option<UserProfile>, logs: seq<MealLog>, now: string): (r: Outcome)
    ensures r.ProfileNotFound? <==> profile.None?
    ensures r.Scored? ==>
      && r.score.overall == CalculateHealthScore(logs, CalculateDailyRequirements(profile.value))
      && 0 <= r.score.overall <= 100
      && r.score.components == Breakdown(r.score.overall)
      && r.score.timestamp == now
    ensures r.Scored? && logs == [] ==> r.score.overall == 50 && r.score.components == Components(20, 15, 10, 5)
  {
    match profile
    case None => ProfileNotFound
    case Some(p) =>
      var overall := CalculateHealthScore(logs, CalculateDailyRequirements(p));
      NeutralBreakdown();
      Scored(HealthScore(overall, Breakdown(overall), now))
  }

  /** The displayed components are not the sub-scores: seven logs of 2000 kcal
      and 100 g protein against 2500 kcal and 112 g blend a calorie balance of
      50 (weighted 20) into an overall 78, which is shown with a calorie
      component of 31. */
  lemma BreakdownIgnoresSubScores(logs: seq<MealLog>, requirements: Nutrients)
    requires |logs| == 7
    requires forall l :: l in logs ==> LogCalories(l) == 2000.0 && LogProtein(l) == 100.0
    requires requirements.calories == 2500.0 && requirements.macros.protein == 112.0
    ensures Balance(2000.0, requirements.calories, 10.0) * 0.4 == 20.0
    ensures Breakdown(CalculateHealthScore(logs, requirements)) == Components(31, 23, 16, 8)
  {
    SevenLogsScore(logs, requirements);
    RoundUnique(31.2, 31);
    RoundUnique(23.4, 23);
    RoundUnique(15.6, 16);
    RoundUnique(7.8, 8);
  }
}
