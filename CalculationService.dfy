/** The earlier, independent scoring revision (`calculateCookedScore` in
    src/lib/calculationService.ts), over its own survey schema.

    Every factor is normalised to a score in [0, 1] (1 = optimal), the scores
    are combined with fixed weights that sum to 1, and the weighted composite
    is mapped onto the 1-10 "cooked" scale (10 = bad). The result also carries
    a risk level, a six-entry factor analysis, at most five recommendations
    and six-category comparison arrays.

    JavaScript numbers are modelled as exact `real`s, not IEEE doubles. */
module CalculationService {

  // ---------------------------------------------------------------------
  // Input record (`SurveyData`)
  // ---------------------------------------------------------------------

  datatype Rating = Low | Medium | High
  datatype PeerEffect = Positive | Neutral | Negative
  datatype Education = HighSchool | College | Postgraduate
  datatype Distance = Near | Moderate | Far
  datatype School = Public | Private
  datatype Gender = Male | Female

  datatype SurveyData = SurveyData(
    hoursStudied: real, attendance: real, parentalInvolvement: Rating,
    accessToResources: Rating, extracurricularActivities: bool, sleepHours: real,
    previousScores: real, motivationLevel: Rating, internetAccess: bool,
    tutoringSessions: real, familyIncome: Rating, teacherQuality: Rating,
    schoolType: School, peerInfluence: PeerEffect, physicalActivity: real,
    learningDisabilities: bool, parentalEducationLevel: Education,
    distanceFromHome: Distance, gender: Gender)

  /** The slider ranges of the survey form; the algorithm does not check them. */
  predicate InSliderRanges(d: SurveyData) {
    && 0.0 <= d.hoursStudied <= 40.0
    && 0.0 <= d.attendance <= 100.0
    && 0.0 <= d.tutoringSessions <= 8.0
    && 0.0 <= d.previousScores <= 100.0
    && 3.0 <= d.sleepHours <= 12.0
    && 0.0 <= d.physicalActivity <= 15.0
  }

  // `OPTIMAL_VALUES`
  const OptimalHoursStudied: real := 20.0
  const OptimalAttendance: real := 85.0
  const OptimalSleepHours: real := 7.5
  const OptimalPreviousScores: real := 75.0
  const OptimalTutoringSessions: real := 2.0
  const OptimalPhysicalActivity: real := 4.0

  // ---------------------------------------------------------------------
  // Mappers from answers to scores
  // ---------------------------------------------------------------------

  /** Position of a rating on its scale, Low first. */
  function RatingRank(v: Rating): nat {
    match v
    case Low => 0
    case Medium => 1
    case High => 2
  }

  function CategoricalToScore(v: Rating): (r: real)
    ensures 0.0 < r <= 1.0
  {
    match v
    case Low => 0.33
    case Medium => 0.66
    case High => 1.0
  }

  /** A higher rating always scores strictly higher, and conversely. */
  lemma CategoricalToScoreIncreasing(a: Rating, b: Rating)
    ensures RatingRank(a) < RatingRank(b) <==> CategoricalToScore(a) < CategoricalToScore(b)
  {
  }

  function PeerInfluenceToScore(v: PeerEffect): (r: real)
    ensures 0.0 <= r <= 1.0
  {
    match v
    case Positive => 1.0
    case Neutral => 0.5
    case Negative => 0.0
  }

  lemma PeerInfluenceOrdering()
    ensures PeerInfluenceToScore(Positive) > PeerInfluenceToScore(Neutral) > PeerInfluenceToScore(Negative)
  {
  }

  /** Position of an education level, high school first. */
  function EducationRank(v: Education): nat {
    match v
    case HighSchool => 0
    case College => 1
    case Postgraduate => 2
  }

  function EducationLevelToScore(v: Education): (r: real)
    ensures 0.0 < r <= 1.0
  {
    match v
    case HighSchool => 0.33
    case College => 0.66
    case Postgraduate => 1.0
  }

  lemma EducationLevelToScoreIncreasing(a: Education, b: Education)
    ensures EducationRank(a) < EducationRank(b) <==> EducationLevelToScore(a) < EducationLevelToScore(b)
  {
  }

  /** Position of a commute distance, nearest first. */
  function DistanceRank(v: Distance): nat {
    match v
    case Near => 0
    case Moderate => 1
    case Far => 2
  }

  function DistanceToScore(v: Distance): (r: real)
    ensures 0.0 < r <= 1.0
  {
    match v
    case Near => 1.0
    case Moderate => 0.66
    case Far => 0.33
  }

  /** A longer commute always scores strictly lower, and conversely. */
  lemma DistanceToScoreDecreasing(a: Distance, b: Distance)
    ensures DistanceRank(a) < DistanceRank(b) <==> DistanceToScore(a) > DistanceToScore(b)
  {
  }

  // ---------------------------------------------------------------------
  // `normalizeValue`
  // ---------------------------------------------------------------------

  function Abs(x: real): real {
    if x < 0.0 then -x else x
  }

  /** JavaScript's `Math.max` on two numbers, as `normalizeValue` uses it. */
  function RealMax(a: real, b: real): (m: real)
    ensures m >= a && m >= b && (m == a || m == b)
  {
    if a >= b then a else b
  }

  /** The largest distance from `optimal` within [0, max]. */
  function MaxDiff(optimal: real, max: real): real {
    RealMax(optimal, max - optimal)
  }

  /** 1 at the optimum, falling linearly with the distance from it, floored at 0. */
  function NormalizeValue(value: real, optimal: real, max: real): (r: real)
    requires MaxDiff(optimal, max) > 0.0
    ensures 0.0 <= r <= 1.0
    ensures r == 1.0 <==> value == optimal
  {
    var diff := Abs(value - optimal);
    var maxDiff := MaxDiff(optimal, max);
    QuotientNonNegative(diff, maxDiff);
    RealMax(0.0, 1.0 - diff / maxDiff)
  }

  lemma QuotientNonNegative(x: real, y: real)
    requires x >= 0.0 && y > 0.0
    ensures x / y >= 0.0 && (x / y == 0.0 <==> x == 0.0)
  {
  }

  lemma QuotientMonotone(x: real, z: real, y: real)
    requires 0.0 <= x <= z && y > 0.0
    ensures x / y <= z / y
  {
  }

  /** A value at least as close to the optimum never scores lower. */
  lemma NormalizeValueCloserIsBetter(a: real, b: real, optimal: real, max: real)
    requires MaxDiff(optimal, max) > 0.0
    requires Abs(a - optimal) <= Abs(b - optimal)
    ensures NormalizeValue(b, optimal, max) <= NormalizeValue(a, optimal, max)
  {
    QuotientMonotone(Abs(a - optimal), Abs(b - optimal), MaxDiff(optimal, max));
  }

  // ---------------------------------------------------------------------
  // Factor scores and `WEIGHTS`
  // ---------------------------------------------------------------------

  /** The keys of `WEIGHTS` (and of the factor-score record). */
  datatype Factor =
    | HoursStudied | Attendance | ParentalInvolvement | AccessToResources
    | ExtracurricularActivities | SleepHours | PreviousScores | MotivationLevel
    | InternetAccess | TutoringSessions | FamilyIncome | TeacherQuality
    | SchoolType | PeerInfluence | PhysicalActivity | LearningDisabilities

  /** `Object.entries(WEIGHTS)` order. */
  const WeightKeys: seq<Factor> := [
    HoursStudied, Attendance, ParentalInvolvement, AccessToResources,
    ExtracurricularActivities, SleepHours, PreviousScores, MotivationLevel,
    InternetAccess, TutoringSessions, FamilyIncome, TeacherQuality,
    SchoolType, PeerInfluence, PhysicalActivity, LearningDisabilities]

  function Weight(f: Factor): (w: real)
    ensures 0.0 < w < 1.0
  {
    match f
    case HoursStudied => 0.15
    case Attendance => 0.15
    case ParentalInvolvement => 0.05
    case AccessToResources => 0.05
    case ExtracurricularActivities => 0.03
    case SleepHours => 0.08
    case PreviousScores => 0.12
    case MotivationLevel => 0.10
    case InternetAccess => 0.02
    case TutoringSessions => 0.05
    case FamilyIncome => 0.02
    case TeacherQuality => 0.05
    case SchoolType => 0.02
    case PeerInfluence => 0.05
    case PhysicalActivity => 0.03
    case LearningDisabilities => 0.03
  }

  /** The entry of `factorScores` for a factor: 1 is optimal. Every entry is in
      [0, 1] except `previousScores / 100`, which is when the score is. */
  function FactorScore(d: SurveyData, f: Factor): (s: real)
    ensures f != PreviousScores || 0.0 <= d.previousScores <= 100.0 ==> 0.0 <= s <= 1.0
  {
    match f
    case HoursStudied => NormalizeValue(d.hoursStudied, OptimalHoursStudied, 40.0)
    case Attendance => NormalizeValue(d.attendance, OptimalAttendance, 100.0)
    case ParentalInvolvement => CategoricalToScore(d.parentalInvolvement)
    case AccessToResources => CategoricalToScore(d.accessToResources)
    case ExtracurricularActivities => if d.extracurricularActivities then 0.8 else 0.4
    case SleepHours => NormalizeValue(d.sleepHours, OptimalSleepHours, 12.0)
    case PreviousScores => d.previousScores / 100.0
    case MotivationLevel => CategoricalToScore(d.motivationLevel)
    case InternetAccess => if d.internetAccess then 1.0 else 0.3
    case TutoringSessions => NormalizeValue(d.tutoringSessions, OptimalTutoringSessions, 8.0)
    case FamilyIncome => CategoricalToScore(d.familyIncome)
    case TeacherQuality => CategoricalToScore(d.teacherQuality)
    case SchoolType => if d.schoolType == Private then 0.7 else 0.5
    case PeerInfluence => PeerInfluenceToScore(d.peerInfluence)
    case PhysicalActivity => NormalizeValue(d.physicalActivity, OptimalPhysicalActivity, 10.0)
    case LearningDisabilities => if d.learningDisabilities then 0.4 else 0.8
  }

  /** Sum of the first `k` weights, in key order. */
  function WeightTotal(k: nat): real
    requires k <= |WeightKeys|
  {
    if k == 0 then 0.0 else WeightTotal(k - 1) + Weight(WeightKeys[k - 1])
  }

  /** `factorScores[key] * weight` */
  function Weighted(d: SurveyData, f: Factor): real {
    FactorScore(d, f) * Weight(f)
  }

  /** Weighted sum of the first `k` factor scores, in key order. */
  function WeightedSum(d: SurveyData, k: nat): real
    requires k <= |WeightKeys|
  {
    if k == 0 then 0.0
    else WeightedSum(d, k - 1) + Weighted(d, WeightKeys[k - 1])
  }

  /** The weighted composite score. */
  function Composite(d: SurveyData): real {
    WeightedSum(d, |WeightKeys|)
  }

  /** Position of a factor in `WeightKeys`. */
  function KeyIndex(f: Factor): nat {
    match f
    case HoursStudied => 0
    case Attendance => 1
    case ParentalInvolvement => 2
    case AccessToResources => 3
    case ExtracurricularActivities => 4
    case SleepHours => 5
    case PreviousScores => 6
    case MotivationLevel => 7
    case InternetAccess => 8
    case TutoringSessions => 9
    case FamilyIncome => 10
    case TeacherQuality => 11
    case SchoolType => 12
    case PeerInfluence => 13
    case PhysicalActivity => 14
    case LearningDisabilities => 15
  }

  /** Every factor of the record is weighted exactly once, and the weights
      sum to exactly 1. */
  lemma WeightsSumToOne()
    ensures forall f: Factor :: KeyIndex(f) < |WeightKeys| && WeightKeys[KeyIndex(f)] == f
    ensures forall i, j :: 0 <= i < j < |WeightKeys| ==> WeightKeys[i] != WeightKeys[j]
    ensures WeightTotal(|WeightKeys|) == 1.0
  {
    assert WeightTotal(4) == 0.40;
    assert WeightTotal(8) == 0.73;
    assert WeightTotal(12) == 0.87;
    assert WeightTotal(16) == 1.0;
  }

  lemma ScaledUnitBounds(s: real, w: real)
    requires 0.0 <= s <= 1.0 && w >= 0.0
    ensures 0.0 <= s * w <= w
  {
  }

  /** With `previousScores` in [0, 100], every partial weighted sum lies
      between 0 and the weights summed so far. */
  lemma {:induction false} WeightedSumBounds(d: SurveyData, k: nat)
    requires k <= |WeightKeys| && 0.0 <= d.previousScores <= 100.0
    ensures 0.0 <= WeightedSum(d, k) <= WeightTotal(k)
  {
    if k > 0 {
      WeightedSumBounds(d, k - 1);
      var f := WeightKeys[k - 1];
      ScaledUnitBounds(FactorScore(d, f), Weight(f));
    }
  }

  lemma CompositeInUnitInterval(d: SurveyData)
    requires 0.0 <= d.previousScores <= 100.0
    ensures 0.0 <= Composite(d) <= 1.0
  {
    WeightedSumBounds(d, |WeightKeys|);
    WeightsSumToOne();
  }

  // ---------------------------------------------------------------------
  // From the composite to the cooked score and risk level
  // ---------------------------------------------------------------------

  /** `Math.round(x)`: the integer nearest to `x`, halves rounded up. */
  function JsRound(x: real): (r: int)
    ensures r as real - 0.5 <= x < r as real + 0.5
  {
    (x + 0.5).Floor
  }

  /** `Math.round((1 - composite) * 9 + 1)`, before the final clamp. */
  function CookedFromComposite(c: real): int {
    JsRound((1.0 - c) * 9.0 + 1.0)
  }

  /** A composite in [0, 1] already gives a score in 1..10, so the clamp
      applied to the returned score changes nothing; a higher composite never
      gives a worse score. */
  lemma CookedFromCompositeRange(c: real, c': real)
    requires 0.0 <= c <= c' <= 1.0
    ensures 1 <= CookedFromComposite(c) <= 10
    ensures CookedFromComposite(c') <= CookedFromComposite(c)
    ensures Clamp(CookedFromComposite(c), 1, 10) == CookedFromComposite(c)
  {
  }

  /** `Math.min(hi, Math.max(lo, x))`, the final clamp of `calculateCookedScore`
      (max inside, min outside, the reverse of the nesting in `api.ts`). */
  function Clamp(x: int, lo: int, hi: int): (r: int)
    requires lo <= hi
    ensures lo <= r <= hi
    ensures lo <= x <= hi ==> r == x
  {
    if x < lo then lo else if x > hi then hi else x
  }

  datatype RiskLevel = RiskLow | RiskMedium | RiskHigh | RiskCritical

  /** How severe a level is: 0 for Low up to 3 for Critical. */
  function Severity(r: RiskLevel): nat {
    match r
    case RiskLow => 0
    case RiskMedium => 1
    case RiskHigh => 2
    case RiskCritical => 3
  }

  function GetRiskLevel(score: int): RiskLevel {
    if score <= 3 then RiskLow
    else if score <= 5 then RiskMedium
    else if score <= 7 then RiskHigh
    else RiskCritical
  }

  /** The thresholds, and a worse score never gives a less severe level. */
  lemma RiskLevelThresholds(s: int, t: int)
    ensures GetRiskLevel(s) == RiskLow <==> s <= 3
    ensures GetRiskLevel(s) == RiskMedium <==> 4 <= s <= 5
    ensures GetRiskLevel(s) == RiskHigh <==> 6 <= s <= 7
    ensures GetRiskLevel(s) == RiskCritical <==> s >= 8
    ensures s <= t ==> Severity(GetRiskLevel(s)) <= Severity(GetRiskLevel(t))
  {
  }

  // ---------------------------------------------------------------------
  // `buildFactorAnalysis`
  // ---------------------------------------------------------------------

  datatype Impact = ImpactPositive | ImpactNeutral | ImpactNegative

  datatype FactorAnalysis = FactorAnalysis(
    name: string, userValue: real, optimalValue: real, impact: Impact, weight: real)

  /** Positive from 0.7, neutral from 0.4, negative below. */
  function ScoreImpact(s: real): Impact {
    if s >= 0.7 then ImpactPositive else if s >= 0.4 then ImpactNeutral else ImpactNegative
  }

  function BuildFactorAnalysis(d: SurveyData): (r: seq<FactorAnalysis>)
    ensures |r| == 6
    ensures r[0].weight == Weight(HoursStudied) && r[1].weight == Weight(Attendance)
    ensures r[2].weight == Weight(SleepHours) && r[3].weight == Weight(MotivationLevel)
    ensures r[4].weight == Weight(PreviousScores)
    ensures r[5].weight == Weight(ParentalInvolvement) + Weight(PeerInfluence)
    ensures r[5].impact != ImpactNegative
  {
    [
      FactorAnalysis("Study Hours", (d.hoursStudied / OptimalHoursStudied) * 100.0, 100.0,
                     ScoreImpact(FactorScore(d, HoursStudied)), Weight(HoursStudied)),
      FactorAnalysis("Attendance", d.attendance, OptimalAttendance,
                     if d.attendance >= 80.0 then ImpactPositive
                     else if d.attendance >= 60.0 then ImpactNeutral else ImpactNegative,
                     Weight(Attendance)),
      FactorAnalysis("Sleep Quality", (d.sleepHours / 8.0) * 100.0, 100.0,
                     ScoreImpact(FactorScore(d, SleepHours)), Weight(SleepHours)),
      FactorAnalysis("Motivation", CategoricalToScore(d.motivationLevel) * 100.0, 100.0,
                     if d.motivationLevel == High then ImpactPositive
                     else if d.motivationLevel == Medium then ImpactNeutral else ImpactNegative,
                     Weight(MotivationLevel)),
      FactorAnalysis("Previous Performance", d.previousScores, OptimalPreviousScores,
                     if d.previousScores >= 70.0 then ImpactPositive
                     else if d.previousScores >= 50.0 then ImpactNeutral else ImpactNegative,
                     Weight(PreviousScores)),
      FactorAnalysis("Support System",
                     (CategoricalToScore(d.parentalInvolvement) + PeerInfluenceToScore(d.peerInfluence)) * 50.0,
                     100.0,
                     if FactorScore(d, ParentalInvolvement) >= 0.7 && FactorScore(d, PeerInfluence) >= 0.7
                     then ImpactPositive else ImpactNeutral,
                     Weight(ParentalInvolvement) + Weight(PeerInfluence))
    ]
  }

  /** What the impacts mean in terms of the answers: study hours are positive
      exactly within 6 hours of the 20-hour optimum; motivation follows the
      rating; the support system is positive exactly when parental
      involvement is High and peer influence Positive. */
  lemma FactorAnalysisImpacts(d: SurveyData)
    ensures BuildFactorAnalysis(d)[0].impact == ImpactPositive <==> 14.0 <= d.hoursStudied <= 26.0
    ensures BuildFactorAnalysis(d)[3].impact == ImpactPositive <==> d.motivationLevel == High
    ensures BuildFactorAnalysis(d)[3].impact == ImpactNegative <==> d.motivationLevel == Low
    ensures BuildFactorAnalysis(d)[5].impact == ImpactPositive <==>
              d.parentalInvolvement == High && d.peerInfluence == Positive
  {
  }

  // ---------------------------------------------------------------------
  // `generateRecommendations`
  // ---------------------------------------------------------------------

  datatype Tip =
    | StudyMore | AttendMore | SleepMore | SetGoals | JoinStudyGroups
    | GetTutoring | ExerciseMore | JoinActivities | KeepUpTheGreatWork

  function TipText(t: Tip): string {
    match t
    case StudyMore => "Increase your weekly study hours to at least 15-20 hours for better results."
    case AttendMore => "Aim for at least 80% class attendance - it strongly correlates with success."
    case SleepMore => "Prioritize 7-8 hours of sleep - it improves memory retention and focus."
    case SetGoals => "Set clear, achievable goals and reward yourself for milestones."
    case JoinStudyGroups => "Consider joining study groups with motivated peers."
    case GetTutoring => "Consider tutoring sessions to address knowledge gaps."
    case ExerciseMore => "Add regular physical activity - it boosts cognitive performance."
    case JoinActivities => "Extracurricular activities can improve time management and motivation."
    case KeepUpTheGreatWork => "Keep up the great work! Maintain your current habits for continued success."
  }

  /** Number of conditions, evaluated in a fixed order. */
  const ConditionCount := 8

  /** Whether the `i`-th condition fires. */
  predicate Condition(d: SurveyData, i: nat)
    requires i < ConditionCount
  {
    match i
    case 0 => FactorScore(d, HoursStudied) < 0.5
    case 1 => FactorScore(d, Attendance) < 0.7
    case 2 => FactorScore(d, SleepHours) < 0.6
    case 3 => FactorScore(d, MotivationLevel) < 0.5
    case 4 => FactorScore(d, PeerInfluence) < 0.5
    case 5 => d.tutoringSessions == 0.0 && FactorScore(d, PreviousScores) < 0.6
    case 6 => FactorScore(d, PhysicalActivity) < 0.4
    case _ => !d.extracurricularActivities
  }

  function TipAt(i: nat): Tip
    requires i < ConditionCount
  {
    match i
    case 0 => StudyMore
    case 1 => AttendMore
    case 2 => SleepMore
    case 3 => SetGoals
    case 4 => JoinStudyGroups
    case 5 => GetTutoring
    case 6 => ExerciseMore
    case _ => JoinActivities
  }

  /** Evaluation position of a tip; the fallback comes last. */
  function TipRank(t: Tip): nat {
    match t
    case StudyMore => 0
    case AttendMore => 1
    case SleepMore => 2
    case SetGoals => 3
    case JoinStudyGroups => 4
    case GetTutoring => 5
    case ExerciseMore => 6
    case JoinActivities => 7
    case KeepUpTheGreatWork => 8
  }

  /** Tips of the conditions among the first `k` that fire, in order. */
  function FiredTips(d: SurveyData, k: nat): seq<Tip>
    requires k <= ConditionCount
  {
    if k == 0 then []
    else if Condition(d, k - 1) then FiredTips(d, k - 1) + [TipAt(k - 1)]
    else FiredTips(d, k - 1)
  }

  /** Fired tips, or the fallback alone, cut to the first five. */
  function RecommendationList(d: SurveyData): seq<Tip> {
    var fired := FiredTips(d, ConditionCount);
    var all := if fired == [] then [KeepUpTheGreatWork] else fired;
    if |all| <= 5 then all else all[..5]
  }

  predicate StrictlyRanked(s: seq<Tip>) {
    forall i, j :: 0 <= i < j < |s| ==> TipRank(s[i]) < TipRank(s[j])
  }

  lemma TipRankOfTipAt(i: nat)
    requires i < ConditionCount
    ensures TipRank(TipAt(i)) == i
  {
  }

  /** The fired tips are in strict evaluation order, and each belongs to a
      condition among the first `k` that fires. */
  lemma {:induction false} FiredTipsRanked(d: SurveyData, k: nat)
    requires k <= ConditionCount
    ensures StrictlyRanked(FiredTips(d, k))
    ensures forall t :: t in FiredTips(d, k) ==>
              TipRank(t) < k && t == TipAt(TipRank(t)) && Condition(d, TipRank(t))
  {
    if k > 0 {
      FiredTipsRanked(d, k - 1);
      TipRankOfTipAt(k - 1);
    }
  }

  /** Condition `i`'s tip is among the first `k` fired ones exactly when
      `i < k` and the condition fires. */
  lemma {:induction false} FiredTipsMembers(d: SurveyData, k: nat, i: nat)
    requires k <= ConditionCount && i < ConditionCount
    ensures TipAt(i) in FiredTips(d, k) <==> i < k && Condition(d, i)
  {
    FiredTipsRanked(d, k);
    TipRankOfTipAt(i);
    if k > 0 && i < k - 1 {
      FiredTipsMembers(d, k - 1, i);
    }
  }

  /** Between one and five tips; the fallback exactly when no condition fires,
      and then alone; otherwise the first (at most five) fired tips, in
      evaluation order. */
  lemma RecommendationListContract(d: SurveyData)
    ensures 1 <= |RecommendationList(d)| <= 5
    ensures KeepUpTheGreatWork in RecommendationList(d) <==>
              forall i :: 0 <= i < ConditionCount ==> !Condition(d, i)
    ensures KeepUpTheGreatWork in RecommendationList(d) ==> RecommendationList(d) == [KeepUpTheGreatWork]
    ensures FiredTips(d, ConditionCount) != [] ==>
              RecommendationList(d) <= FiredTips(d, ConditionCount)
    ensures FiredTips(d, ConditionCount) != [] && |FiredTips(d, ConditionCount)| <= 5 ==>
              RecommendationList(d) == FiredTips(d, ConditionCount)
    ensures |FiredTips(d, ConditionCount)| > 5 ==>
              RecommendationList(d) == FiredTips(d, ConditionCount)[..5]
    ensures StrictlyRanked(RecommendationList(d))
    ensures forall t :: t in RecommendationList(d) && t != KeepUpTheGreatWork ==> Condition(d, TipRank(t))
  {
    var fired := FiredTips(d, ConditionCount);
    FiredTipsRanked(d, ConditionCount);
    forall i | 0 <= i < ConditionCount
      ensures TipAt(i) in fired <==> Condition(d, i)
    {
      FiredTipsMembers(d, ConditionCount, i);
    }
    if fired != [] {
      var t := fired[0];
      assert TipAt(TipRank(t)) in fired;
      assert KeepUpTheGreatWork !in fired;
      var r := RecommendationList(d);
      assert forall t :: t in r ==> t in fired;
    }
  }

  /** `generateRecommendations`: one push per condition that fires, the
      fallback when nothing was pushed, then the first five. */
  method GenerateRecommendations(d: SurveyData) returns (recommendations: seq<Tip>)
    ensures recommendations == RecommendationList(d)
  {
    recommendations := PushStudyTips(d);
    recommendations := PushLifestyleTips(d, recommendations);
    if |recommendations| == 0 { recommendations := recommendations + [KeepUpTheGreatWork]; }
    if |recommendations| > 5 { recommendations := recommendations[..5]; }
  }

  /** Conditions 0-3: study hours, attendance, sleep, motivation. */
  method PushStudyTips(d: SurveyData) returns (recommendations: seq<Tip>)
    ensures recommendations == FiredTips(d, 4)
  {
    recommendations := [];
    assert recommendations == FiredTips(d, 0);
    if FactorScore(d, HoursStudied) < 0.5 { recommendations := recommendations + [StudyMore]; }
    assert recommendations == FiredTips(d, 1);
    if FactorScore(d, Attendance) < 0.7 { recommendations := recommendations + [AttendMore]; }
    assert recommendations == FiredTips(d, 2);
    if FactorScore(d, SleepHours) < 0.6 { recommendations := recommendations + [SleepMore]; }
    assert recommendations == FiredTips(d, 3);
    if FactorScore(d, MotivationLevel) < 0.5 { recommendations := recommendations + [SetGoals]; }
    assert recommendations == FiredTips(d, 4);
  }

  /** Conditions 4-7: peers, tutoring, physical activity, extracurriculars. */
  method PushLifestyleTips(d: SurveyData, start: seq<Tip>) returns (recommendations: seq<Tip>)
    requires start == FiredTips(d, 4)
    ensures recommendations == FiredTips(d, 8)
  {
    recommendations := start;
    if FactorScore(d, PeerInfluence) < 0.5 { recommendations := recommendations + [JoinStudyGroups]; }
    assert recommendations == FiredTips(d, 5);
    if d.tutoringSessions == 0.0 && FactorScore(d, PreviousScores) < 0.6 {
      recommendations := recommendations + [GetTutoring];
    }
    assert recommendations == FiredTips(d, 6);
    if FactorScore(d, PhysicalActivity) < 0.4 { recommendations := recommendations + [ExerciseMore]; }
    assert recommendations == FiredTips(d, 7);
    if !d.extracurricularActivities { recommendations := recommendations + [JoinActivities]; }
    assert recommendations == FiredTips(d, 8);
  }

  // ---------------------------------------------------------------------
  // `buildComparisonData`
  // ---------------------------------------------------------------------

  datatype ComparisonData = ComparisonData(
    categories: seq<string>, userScores: seq<int>, avgPassingScores: seq<int>)

  const Categories: seq<string> := ["Study Hours", "Attendance", "Sleep", "Motivation", "Resources", "Support"]

  /** `avgPassing`: the reference profile of passing students, in percent. */
  const AvgPassingScores: seq<int> := [75, 85, 90, 80, 75, 70]

  function BuildComparisonData(d: SurveyData): (r: ComparisonData)
    ensures |r.categories| == |r.userScores| == |r.avgPassingScores| == 6
    ensures r.categories == Categories && r.avgPassingScores == AvgPassingScores
    ensures InSliderRanges(d) ==> forall i :: 0 <= i < 6 ==> 0 <= r.userScores[i] <= 200
  {
    ComparisonData(
      Categories,
      [
        JsRound((d.hoursStudied / OptimalHoursStudied) * 100.0),
        JsRound(d.attendance),
        JsRound((d.sleepHours / 8.0) * 100.0),
        JsRound(CategoricalToScore(d.motivationLevel) * 100.0),
        JsRound(CategoricalToScore(d.accessToResources) * 100.0),
        JsRound((CategoricalToScore(d.parentalInvolvement) + PeerInfluenceToScore(d.peerInfluence)) * 50.0)
      ],
      AvgPassingScores)
  }

  // ---------------------------------------------------------------------
  // `calculateCookedScore`
  // ---------------------------------------------------------------------

  datatype CalculationResult = CalculationResult(
    cookedScore: int, riskLevel: RiskLevel, factors: seq<FactorAnalysis>,
    recommendations: seq<Tip>, comparisonData: ComparisonData)

  /** The `for ... of Object.entries(WEIGHTS)` loop accumulating the composite. */
  method CompositeScore(d: SurveyData) returns (compositeScore: real)
    ensures compositeScore == Composite(d)
  {
    compositeScore := 0.0;
    for i := 0 to |WeightKeys|
      invariant compositeScore == WeightedSum(d, i)
    {
      var key := WeightKeys[i];
      compositeScore := compositeScore + Weighted(d, key);
    }
  }

  /** `calculateCookedScore` without its artificial delay. The returned score
      is always in 1..10; with `previousScores` in [0, 100] the clamp is a
      no-op, so the risk level is that of the returned score. */
  method CalculateCookedScore(d: SurveyData) returns (r: CalculationResult)
    ensures r.cookedScore == Clamp(CookedFromComposite(Composite(d)), 1, 10)
    ensures 1 <= r.cookedScore <= 10
    ensures r.riskLevel == GetRiskLevel(CookedFromComposite(Composite(d)))
    ensures 0.0 <= d.previousScores <= 100.0 ==>
              r.cookedScore == CookedFromComposite(Composite(d)) && r.riskLevel == GetRiskLevel(r.cookedScore)
    ensures r.factors == BuildFactorAnalysis(d)
    ensures r.recommendations == RecommendationList(d) && 1 <= |r.recommendations| <= 5
    ensures r.comparisonData == BuildComparisonData(d)
  {
    var compositeScore := CompositeScore(d);
    var cookedScore := JsRound((1.0 - compositeScore) * 9.0 + 1.0);
    var riskLevel := GetRiskLevel(cookedScore);
    var factors := BuildFactorAnalysis(d);
    var recommendations := GenerateRecommendations(d);
    RecommendationListContract(d);
    var comparisonData := BuildComparisonData(d);
    if 0.0 <= d.previousScores <= 100.0 {
      CompositeInUnitInterval(d);
      CookedFromCompositeRange(compositeScore, compositeScore);
    }
    r := CalculationResult(
      if cookedScore < 1 then 1 else if cookedScore > 10 then 10 else cookedScore,
      riskLevel, factors, recommendations, comparisonData);
  }
}
