/** The mock prediction algorithm behind the survey dashboard
    (`analyzeStudentPerformance` in src/lib/api.ts).

    A predicted final grade G3 on the 0-20 scale is accumulated from a
    baseline and a fixed, ordered list of additive adjustments, clamped,
    rounded, and turned into a 1-10 "cooked score", a risk tier, a failure
    probability, an ordered list of recommendations and two display series.

    Every constant of the algorithm is a multiple of 0.1 and the baseline is a
    multiple of 0.5, so the running score is kept exactly as an integer number
    of TENTHS of a grade point (11.5 is 115). JavaScript's `Math.round(x)` is
    `floor(x + 1/2)`, written here as `JsRound`. */
module StudentAnalysis {
  import Strings

  // ---------------------------------------------------------------------
  // Input record (`StudentData`)
  // ---------------------------------------------------------------------

  datatype Sex = F | M
  datatype Address = Urban | Rural
  datatype FamilySize = LE3 | GT3
  datatype ParentStatus = Together | Apart
  datatype Job = Teacher | HealthJob | Services | AtHome | OtherJob

  datatype StudentData = StudentData(
    sex: Sex, age: int, address: Address, famsize: FamilySize, pstatus: ParentStatus,
    medu: int, fedu: int, mjob: Job, fjob: Job,
    traveltime: int, studytime: int, failures: int,
    schoolsup: bool, famsup: bool, paid: bool, activities: bool, nursery: bool,
    higher: bool, internet: bool, romantic: bool,
    famrel: int, freetime: int, goout: int, dalc: int, walc: int, health: int,
    absences: int, g1: int, g2: int)

  /** The ranges written beside each numeric field of `StudentData`.
      The algorithm itself does not check them. */
  predicate InDomain(d: StudentData) {
    && 15 <= d.age <= 22
    && 0 <= d.medu <= 4 && 0 <= d.fedu <= 4
    && 1 <= d.traveltime <= 4 && 1 <= d.studytime <= 4
    && 0 <= d.failures <= 4
    && 1 <= d.famrel <= 5 && 1 <= d.freetime <= 5 && 1 <= d.goout <= 5
    && 1 <= d.dalc <= 5 && 1 <= d.walc <= 5 && 1 <= d.health <= 5
    && 0 <= d.absences <= 93
    && 0 <= d.g1 <= 20 && 0 <= d.g2 <= 20
  }

  // ---------------------------------------------------------------------
  // Output record (`AnalysisResult`)
  // ---------------------------------------------------------------------

  datatype RiskLevel = AcademicWeapon | Mid | Cooked | SuperCooked

  /** How severe a tier is: 0 for "Academic Weapon" up to 3 for "Super Cooked". */
  function Severity(r: RiskLevel): nat {
    match r
    case AcademicWeapon => 0
    case Mid => 1
    case Cooked => 2
    case SuperCooked => 3
  }

  function RiskName(r: RiskLevel): string {
    match r
    case AcademicWeapon => "Academic Weapon"
    case Mid => "Mid"
    case Cooked => "Cooked"
    case SuperCooked => "Super Cooked"
  }

  /** One recommendation; `Text` gives the exact message, with the
      interpolated values the constructor carries. */
  datatype Advice =
    | Comeback(failures: int)
    | FocusFlow
    | PartyNerf(dalc: int, walc: int)
    | GhostProtocol
    | AimHigher
    | SimpTax
    | ParentalBuffs
    | TravelLag
    | SkillIssue
    | OfflineMode
    | GigaChad

  function Text(a: Advice): string {
    match a
    case Comeback(f) =>
      "Academic Comeback Needed: You have " + Strings.IntToString(f) +
      " past L's. You need to lock in exponentially harder."
    case FocusFlow => "Focus Flow 404: <2h study/week? Even NPCs study more. Pump those numbers."
    case PartyNerf(w, e) =>
      "Party Nerf: " + Strings.IntToString(w) + " (Workday) / " + Strings.IntToString(e) +
      " (Weekend) alcohol is debuffing your INT. Sober up for the W."
    case GhostProtocol => "Ghost Protocol: Skipping class isn't a strat. Show up or drop out."
    case AimHigher => "Aim Higher: No plans for uni? Bro, at least maximize your current stats."
    case SimpTax => "Simp Tax: Relationship might be nerfing your focus. Balance the romance with the books."
    case ParentalBuffs => "Parental Buffs: Family education level is low. Seek mentors or external resources for guidance."
    case TravelLag => "Travel Lag: Long commute drains energy. Optimize study setup or consider closer options if possible."
    case SkillIssue => "Skill Issue: Too much free time, not enough study time. Balance the scales."
    case OfflineMode => "Offline Mode: No internet access is a major debuff. Find a reliable connection for learning resources."
    case GigaChad => "Giga-Chad Status: Stats look clean. Keep mogging the curriculum."
  }

  datatype Impact = Positive | Negative | Neutral

  datatype RadarEntry = RadarEntry(subject: string, a: real, b: real, fullMark: int)

  datatype FactorImpact = FactorImpact(factor: string, impact: Impact, value: string)

  datatype AnalysisResult = AnalysisResult(
    cookedScore: int,
    predictedG3: int,
    riskLevel: RiskLevel,
    probabilityOfFailing: int,
    recommendations: seq<Advice>,
    radarData: seq<RadarEntry>,
    factorImpacts: seq<FactorImpact>)

  /** Reference values for the "average passing student" (`PASSING_AVG`). */
  datatype PassingAverages = PassingAverages(
    studytime: real, failures: real, absences: real, goout: real, freetime: real,
    dalc: real, walc: real, health: real, traveltime: real, famrel: real,
    medu: real, fedu: real, age: real, g1: real, g2: real)

  const PassingAvg := PassingAverages(
    studytime := 2.5, failures := 0.1, absences := 3.5, goout := 3.0, freetime := 3.2,
    dalc := 1.2, walc := 2.0, health := 3.8, traveltime := 1.5, famrel := 4.0,
    medu := 3.0, fedu := 2.8, age := 17.0, g1 := 12.0, g2 := 12.0)

  // ---------------------------------------------------------------------
  // Arithmetic helpers
  // ---------------------------------------------------------------------

  function Max(a: int, b: int): int { if a >= b then a else b }
  function Min(a: int, b: int): int { if a <= b then a else b }

  /** `Math.max(lo, Math.min(hi, x))`. */
  function Clamp(x: int, lo: int, hi: int): (r: int)
    requires lo <= hi
    ensures lo <= r <= hi
    ensures lo <= x <= hi ==> r == x
    ensures x < lo ==> r == lo
    ensures x > hi ==> r == hi
  {
    Max(lo, Min(hi, x))
  }

  /** `Math.round(num / den)`: the integer nearest to num/den, halves rounded up. */
  function JsRound(num: int, den: int): (r: int)
    requires den > 0
    ensures 2 * den * r - den <= 2 * num < 2 * den * r + den
  {
    (2 * num + den) / (2 * den)
  }

  lemma JsRoundMonotone(a: int, b: int, den: int)
    requires den > 0 && a <= b
    ensures JsRound(a, den) <= JsRound(b, den)
  {
    var ra, rb := JsRound(a, den), JsRound(b, den);
    assert 2 * den * (ra - rb - 1) < 0;
    NegativeFactor(2 * den, ra - rb - 1);
  }

  lemma NegativeFactor(x: int, y: int)
    requires x > 0 && x * y < 0
    ensures y < 0
  {
  }

  // ---------------------------------------------------------------------
  // The score, in tenths of a grade point
  // ---------------------------------------------------------------------

  /** Population mean of G3 used when no prior grade is known: 11.5. */
  const DefaultBaseline := 115

  /** `currentAvg` in tenths: (G1 + G2) / 2 when both grades are positive, else
      G1 + G2. JavaScript's `/` is exact here, so in tenths the division by 2
      is a multiplication by 5 (and by 1 a multiplication by 10). */
  function CurrentAverage(g1: int, g2: int): int {
    (g1 + g2) * (if g1 > 0 && g2 > 0 then 5 else 10)
  }

  /** Starting score: the mean of the non-zero prior grades G1, G2, or 11.5. */
  function Baseline(d: StudentData): int {
    if d.g1 > 0 || d.g2 > 0 then CurrentAverage(d.g1, d.g2) else DefaultBaseline
  }

  /** The survey fields that adjust the score, one per additive step. */
  datatype Factor =
    | Failures | HigherEducation | StudyTime | WorkdayAlcohol | WeekendAlcohol
    | Absences | Romantic | GoingOut | FamilyRelations | MotherEducation
    | FatherEducation | SchoolSupport | FamilySupport | PaidClasses | Activities
    | Nursery | InternetAccess | TravelTime | FreeTime | Age

  /** Number of adjustment steps. */
  const FactorCount := 20

  /** The order in which the adjustments are applied: the factor of step `k`. */
  function FactorAt(k: nat): Factor
    requires k < FactorCount
  {
    match k
    case 0 => Failures
    case 1 => HigherEducation
    case 2 => StudyTime
    case 3 => WorkdayAlcohol
    case 4 => WeekendAlcohol
    case 5 => Absences
    case 6 => Romantic
    case 7 => GoingOut
    case 8 => FamilyRelations
    case 9 => MotherEducation
    case 10 => FatherEducation
    case 11 => SchoolSupport
    case 12 => FamilySupport
    case 13 => PaidClasses
    case 14 => Activities
    case 15 => Nursery
    case 16 => InternetAccess
    case 17 => TravelTime
    case 18 => FreeTime
    case _ => Age
  }

  /** The factor table: what each factor adds to the score, in tenths. */
  function Adjustment(d: StudentData, f: Factor): int {
    match f
    case Failures => -18 * d.failures
    case HigherEducation => if d.higher then 15 else -15
    case StudyTime => 10 * (d.studytime - 2)
    case WorkdayAlcohol => -3 * (d.dalc - 1)
    case WeekendAlcohol => -5 * (d.walc - 1)
    case Absences => if d.absences > 10 then -20 else if d.absences > 5 then -10 else if d.absences > 0 then -2 else 0
    case Romantic => if d.romantic then -5 else 0
    case GoingOut => if d.goout > 4 then -8 else if d.goout < 2 then 2 else 0
    case FamilyRelations => 3 * (d.famrel - 3)
    case MotherEducation => 2 * (d.medu - 2)
    case FatherEducation => 2 * (d.fedu - 2)
    case SchoolSupport => if d.schoolsup then -5 else 0
    case FamilySupport => if d.famsup then 5 else 0
    case PaidClasses => if d.paid then 2 else 0
    case Activities => if d.activities then 3 else 0
    case Nursery => if d.nursery then 1 else 0
    case InternetAccess => if d.internet then 5 else 0
    case TravelTime => -3 * (d.traveltime - 1)
    case FreeTime => if d.freetime > 4 then -2 else if d.freetime < 2 then -2 else 0
    case Age => if d.age > 18 then -3 else 0
  }

  /** The score after the first `k` adjustments, in step order. */
  function ScoreAfter(d: StudentData, k: nat): int
    requires k <= FactorCount
  {
    if k == 0 then Baseline(d) else ScoreAfter(d, k - 1) + Adjustment(d, FactorAt(k - 1))
  }

  /** The unclamped score: baseline plus every adjustment. */
  function RawScore(d: StudentData): int {
    ScoreAfter(d, FactorCount)
  }

  /** The score clamped to the grade range 0..20 (0..200 tenths). */
  function ClampedScore(d: StudentData): int {
    Clamp(RawScore(d), 0, 200)
  }

  /** `predictedG3`: the clamped score rounded to a whole grade. */
  function PredictedG3(d: StudentData): (p: int)
    ensures 0 <= p <= 20
  {
    JsRound(ClampedScore(d), 10)
  }

  /** `cookedScore`: round(11 - score/2) clamped to 1..10, with a floor of 9
      for three or more past failures. In tenths, 11 - score/2 is (220 - t)/20. */
  function CookedScore(d: StudentData): (c: int)
    ensures 1 <= c <= 10
    ensures d.failures >= 3 ==> c >= 9
  {
    var linear := Clamp(JsRound(220 - ClampedScore(d), 20), 1, 10);
    if d.failures >= 3 then Max(linear, 9) else linear
  }

  function RiskLevelOf(p: int): RiskLevel {
    if p < 10 then (if p < 7 then SuperCooked else Cooked)
    else if p < 14 then Mid
    else AcademicWeapon
  }

  function ProbabilityOfFailing(p: int): (prob: int)
    ensures 1 <= prob <= 99
  {
    var raw := if p < 10 then 80 + (10 - p) * 4 else if p < 14 then 30 - (p - 10) * 5 else 5;
    Clamp(raw, 1, 99)
  }

  // ---------------------------------------------------------------------
  // Recommendations
  // ---------------------------------------------------------------------

  /** Number of trigger conditions, evaluated in a fixed order. */
  const TriggerCount := 10

  /** Whether the `i`-th trigger fires, given the predicted grade `p`. */
  predicate Fires(d: StudentData, p: int, i: nat)
    requires i < TriggerCount
  {
    match i
    case 0 => d.failures > 0
    case 1 => d.studytime < 2
    case 2 => d.dalc > 2 || d.walc > 3
    case 3 => d.absences > 5
    case 4 => !d.higher
    case 5 => d.romantic && p < 12
    case 6 => d.medu < 2 && d.fedu < 2
    case 7 => d.traveltime > 2
    case 8 => d.freetime > 4 && d.studytime < 3
    case _ => !d.internet
  }

  /** The message the `i`-th trigger appends. */
  function AdviceAt(d: StudentData, i: nat): Advice
    requires i < TriggerCount
  {
    match i
    case 0 => Comeback(d.failures)
    case 1 => FocusFlow
    case 2 => PartyNerf(d.dalc, d.walc)
    case 3 => GhostProtocol
    case 4 => AimHigher
    case 5 => SimpTax
    case 6 => ParentalBuffs
    case 7 => TravelLag
    case 8 => SkillIssue
    case _ => OfflineMode
  }

  /** Position of a message in the evaluation order; the fallback comes last. */
  function Rank(a: Advice): nat {
    match a
    case Comeback(_) => 0
    case FocusFlow => 1
    case PartyNerf(_, _) => 2
    case GhostProtocol => 3
    case AimHigher => 4
    case SimpTax => 5
    case ParentalBuffs => 6
    case TravelLag => 7
    case SkillIssue => 8
    case OfflineMode => 9
    case GigaChad => 10
  }

  /** Messages of the triggers among the first `k` that fire, in order. */
  function FiredUpTo(d: StudentData, p: int, k: nat): seq<Advice>
    requires k <= TriggerCount
  {
    if k == 0 then []
    else if Fires(d, p, k - 1) then FiredUpTo(d, p, k - 1) + [AdviceAt(d, k - 1)]
    else FiredUpTo(d, p, k - 1)
  }

  /** The recommendation list: the fired messages, or the single fallback. */
  function Recommendations(d: StudentData, p: int): seq<Advice> {
    var fired := FiredUpTo(d, p, TriggerCount);
    if fired == [] then [GigaChad] else fired
  }

  predicate StrictlyRanked(s: seq<Advice>) {
    forall i, j :: 0 <= i < j < |s| ==> Rank(s[i]) < Rank(s[j])
  }

  /** Each trigger's message has the trigger's own rank. */
  lemma RankOfAdviceAt(d: StudentData, i: nat)
    requires i < TriggerCount
    ensures Rank(AdviceAt(d, i)) == i
  {
  }

  /** The fired messages are in strict evaluation order, and each is the
      message of a trigger among the first `k` that fires. */
  lemma {:induction false} FiredUpToRanked(d: StudentData, p: int, k: nat)
    requires k <= TriggerCount
    ensures StrictlyRanked(FiredUpTo(d, p, k))
    ensures forall a :: a in FiredUpTo(d, p, k) ==>
              Rank(a) < k && a == AdviceAt(d, Rank(a)) && Fires(d, p, Rank(a))
  {
    if k > 0 {
      FiredUpToRanked(d, p, k - 1);
      RankOfAdviceAt(d, k - 1);
    }
  }

  /** Trigger `i`'s message is among the first `k` fired ones exactly when
      `i < k` and the trigger fires. */
  lemma {:induction false} FiredUpToMembers(d: StudentData, p: int, k: nat, i: nat)
    requires k <= TriggerCount && i < TriggerCount
    ensures AdviceAt(d, i) in FiredUpTo(d, p, k) <==> i < k && Fires(d, p, i)
  {
    FiredUpToRanked(d, p, k);
    RankOfAdviceAt(d, i);
    if k > 0 && i < k - 1 {
      FiredUpToMembers(d, p, k - 1, i);
    }
  }

  /** The list is never empty; the fallback appears exactly when no trigger
      fires and is then the only entry; every other message appears exactly
      when its trigger fires; and messages keep the evaluation order. */
  lemma RecommendationsContract(d: StudentData, p: int)
    ensures Recommendations(d, p) != []
    ensures GigaChad in Recommendations(d, p) <==> forall i :: 0 <= i < TriggerCount ==> !Fires(d, p, i)
    ensures GigaChad in Recommendations(d, p) ==> Recommendations(d, p) == [GigaChad]
    ensures forall i :: 0 <= i < TriggerCount ==>
              (AdviceAt(d, i) in Recommendations(d, p) <==> Fires(d, p, i))
    ensures forall a :: a in Recommendations(d, p) ==>
              a == GigaChad || exists i :: 0 <= i < TriggerCount && Fires(d, p, i) && a == AdviceAt(d, i)
    ensures StrictlyRanked(Recommendations(d, p))
  {
    FiredUpToRanked(d, p, TriggerCount);
    forall i | 0 <= i < TriggerCount
      ensures AdviceAt(d, i) in FiredUpTo(d, p, TriggerCount) <==> Fires(d, p, i)
    {
      FiredUpToMembers(d, p, TriggerCount, i);
    }
    var fired := FiredUpTo(d, p, TriggerCount);
    if fired != [] {
      var a := fired[0];
      assert AdviceAt(d, Rank(a)) in fired;
    }
  }

  // ---------------------------------------------------------------------
  // Display series
  // ---------------------------------------------------------------------

  function RadarData(d: StudentData): (r: seq<RadarEntry>)
    ensures |r| == 6
    ensures forall i :: 0 <= i < 6 ==> r[i].fullMark == 100
    ensures InDomain(d) ==> forall i :: 0 <= i < 6 ==> 0.0 <= r[i].a <= 100.0
    ensures forall i :: 0 <= i < 6 ==> 0.0 <= r[i].b <= 100.0
  {
    [
      RadarEntry("Focus Flow", d.studytime as real * 25.0, PassingAvg.studytime * 25.0, 100),
      RadarEntry("Social Life", (d.goout + d.dalc + d.walc) as real * (100.0 / 15.0),
                 (PassingAvg.goout + PassingAvg.dalc + PassingAvg.walc) * (100.0 / 15.0), 100),
      RadarEntry("Health", d.health as real * 20.0, PassingAvg.health * 20.0, 100),
      RadarEntry("Family Rel.", d.famrel as real * 20.0, PassingAvg.famrel * 20.0, 100),
      RadarEntry("Parental Edu", ((d.medu + d.fedu) as real / 2.0) * 25.0,
                 ((PassingAvg.medu + PassingAvg.fedu) / 2.0) * 25.0, 100),
      RadarEntry("Attendance", Max(0, 100 - d.absences * 2) as real,
                 RealMax(0.0, 100.0 - PassingAvg.absences * 2.0), 100)
    ]
  }

  /** `Math.max` on the fractional reference values of the radar. */
  function RealMax(a: real, b: real): real { if a >= b then a else b }

  /** The reference ("B") side of the radar does not depend on the student. */
  lemma RadarReferenceFixed(d: StudentData, e: StudentData)
    ensures forall i :: 0 <= i < 6 ==>
              RadarData(d)[i].subject == RadarData(e)[i].subject && RadarData(d)[i].b == RadarData(e)[i].b
  {
  }

  function FactorImpacts(d: StudentData): (r: seq<FactorImpact>)
    ensures |r| == 6
    ensures r[0].impact == Positive <==> d.studytime > 2
    ensures r[1].impact == Positive <==> d.failures == 0
    ensures r[2].impact == Positive <==> d.absences < 4
    ensures r[5].impact != Negative
  {
    [
      FactorImpact("Study Habits", if d.studytime > 2 then Positive else Negative,
                   if d.studytime > 2 then "High" else "Low"),
      FactorImpact("Past Failures", if d.failures == 0 then Positive else Negative,
                   Strings.IntToString(d.failures)),
      FactorImpact("Absences", if d.absences < 4 then Positive else Negative,
                   Strings.IntToString(d.absences) + " missed"),
      FactorImpact("Parental Support", if d.famsup then Positive else Negative,
                   if d.famsup then "Yes" else "No"),
      FactorImpact("Internet Access", if d.internet then Positive else Negative,
                   if d.internet then "Yes" else "No"),
      FactorImpact("Current Grades", if d.g1 > 10 || d.g2 > 10 then Positive else Neutral,
                   "G1:" + Strings.IntToString(d.g1) + " G2:" + Strings.IntToString(d.g2))
    ]
  }

  // ---------------------------------------------------------------------
  // The algorithm, step by step
  // ---------------------------------------------------------------------

  /** Lines 78-137 of `analyzeStudentPerformance`: the score starts from the
      baseline and is updated in place once per factor, in table order. */
  method AccumulateScore(d: StudentData) returns (score: int)
    ensures score == RawScore(d)
  {
    score := DefaultBaseline;
    if d.g1 > 0 || d.g2 > 0 {
      var currentAvg := (d.g1 + d.g2) * (if d.g1 > 0 && d.g2 > 0 then 5 else 10);
      score := currentAvg;
    }
    assert score == ScoreAfter(d, 0);
    score := ApplyRecordFactors(d, score);
    score := ApplySupportFactors(d, score);
    score := ApplyCircumstanceFactors(d, score);
  }

  /** Sections 1-9 of the algorithm: failures, plans, study time, alcohol,
      absences, relationship, going out, family relations, parents' education. */
  method ApplyRecordFactors(d: StudentData, start: int) returns (score: int)
    requires start == ScoreAfter(d, 0)
    ensures score == ScoreAfter(d, 11)
  {
    score := start;
    score := score - d.failures * 18;
    assert score == ScoreAfter(d, 1);

    if d.higher { score := score + 15; } else { score := score - 15; }
    assert score == ScoreAfter(d, 2);

    score := score + (d.studytime - 2) * 10;
    assert score == ScoreAfter(d, 3);

    score := score - (d.dalc - 1) * 3;
    assert score == ScoreAfter(d, 4);
    score := score - (d.walc - 1) * 5;
    assert score == ScoreAfter(d, 5);

    if d.absences > 10 { score := score - 20; }
    else if d.absences > 5 { score := score - 10; }
    else if d.absences > 0 { score := score - 2; }
    assert score == ScoreAfter(d, 6);

    if d.romantic { score := score - 5; }
    assert score == ScoreAfter(d, 7);

    if d.goout > 4 { score := score - 8; }
    else if d.goout < 2 { score := score + 2; }
    assert score == ScoreAfter(d, 8);

    score := score + (d.famrel - 3) * 3;
    assert score == ScoreAfter(d, 9);

    score := score + (d.medu - 2) * 2;
    assert score == ScoreAfter(d, 10);
    score := score + (d.fedu - 2) * 2;
    assert score == ScoreAfter(d, 11);
  }

  /** Sections 10-12: school and family support, paid classes,
      activities and nursery. */
  method ApplySupportFactors(d: StudentData, start: int) returns (score: int)
    requires start == ScoreAfter(d, 11)
    ensures score == ScoreAfter(d, 16)
  {
    score := start;
    if d.schoolsup { score := score - 5; }
    assert score == ScoreAfter(d, 12);
    if d.famsup { score := score + 5; }
    assert score == ScoreAfter(d, 13);
    if d.paid { score := score + 2; }
    assert score == ScoreAfter(d, 14);
    if d.activities { score := score + 3; }
    assert score == ScoreAfter(d, 15);
    if d.nursery { score := score + 1; }
  }

  /** Sections 13-14: internet, travel time, free time and age. */
  method ApplyCircumstanceFactors(d: StudentData, start: int) returns (score: int)
    requires start == ScoreAfter(d, 16)
    ensures score == ScoreAfter(d, 20)
  {
    score := start;
    if d.internet { score := score + 5; }
    assert score == ScoreAfter(d, 17);

    score := score - (d.traveltime - 1) * 3;
    assert score == ScoreAfter(d, 18);

    if d.freetime > 4 { score := score - 2; }
    else if d.freetime < 2 { score := score - 2; }
    assert score == ScoreAfter(d, 19);

    if d.age > 18 { score := score - 3; }
  }

  /** Lines 163-175: one push per trigger that fires, then the fallback when
      nothing was pushed. */
  method PushRecommendations(d: StudentData, p: int) returns (recommendations: seq<Advice>)
    ensures recommendations == Recommendations(d, p)
    ensures recommendations != []
  {
    recommendations := PushHabitAdvice(d, p);
    recommendations := PushCircumstanceAdvice(d, p, recommendations);
    if |recommendations| == 0 { recommendations := recommendations + [GigaChad]; }
  }

  /** Triggers 0-4: failures, study time, alcohol, absences, plans. */
  method PushHabitAdvice(d: StudentData, p: int) returns (recommendations: seq<Advice>)
    ensures recommendations == FiredUpTo(d, p, 5)
  {
    recommendations := [];
    assert recommendations == FiredUpTo(d, p, 0);
    if d.failures > 0 { recommendations := recommendations + [Comeback(d.failures)]; }
    assert recommendations == FiredUpTo(d, p, 1);
    if d.studytime < 2 { recommendations := recommendations + [FocusFlow]; }
    assert recommendations == FiredUpTo(d, p, 2);
    if d.dalc > 2 || d.walc > 3 { recommendations := recommendations + [PartyNerf(d.dalc, d.walc)]; }
    assert recommendations == FiredUpTo(d, p, 3);
    if d.absences > 5 { recommendations := recommendations + [GhostProtocol]; }
    assert recommendations == FiredUpTo(d, p, 4);
    if !d.higher { recommendations := recommendations + [AimHigher]; }
    assert recommendations == FiredUpTo(d, p, 5);
  }

  /** Triggers 5-9: relationship, parents' education, travel, free time, internet. */
  method PushCircumstanceAdvice(d: StudentData, p: int, start: seq<Advice>) returns (recommendations: seq<Advice>)
    requires start == FiredUpTo(d, p, 5)
    ensures recommendations == FiredUpTo(d, p, 10)
  {
    recommendations := start;
    if d.romantic && p < 12 { recommendations := recommendations + [SimpTax]; }
    assert recommendations == FiredUpTo(d, p, 6);
    if d.medu < 2 && d.fedu < 2 { recommendations := recommendations + [ParentalBuffs]; }
    assert recommendations == FiredUpTo(d, p, 7);
    if d.traveltime > 2 { recommendations := recommendations + [TravelLag]; }
    assert recommendations == FiredUpTo(d, p, 8);
    if d.freetime > 4 && d.studytime < 3 { recommendations := recommendations + [SkillIssue]; }
    assert recommendations == FiredUpTo(d, p, 9);
    if !d.internet { recommendations := recommendations + [OfflineMode]; }
    assert recommendations == FiredUpTo(d, p, 10);
  }

  /** `analyzeStudentPerformance` without its artificial delay: the score is
      accumulated in place, then the derived values are reassigned and the
      recommendations pushed one by one. */
  method AnalyzeStudentPerformance(d: StudentData) returns (r: AnalysisResult)
    ensures r.predictedG3 == PredictedG3(d) && 0 <= r.predictedG3 <= 20
    ensures r.cookedScore == CookedScore(d) && 1 <= r.cookedScore <= 10
    ensures d.failures >= 3 ==> r.cookedScore >= 9
    ensures r.riskLevel == RiskLevelOf(r.predictedG3)
    ensures r.probabilityOfFailing == ProbabilityOfFailing(r.predictedG3)
    ensures 1 <= r.probabilityOfFailing <= 99
    ensures r.recommendations == Recommendations(d, r.predictedG3) && r.recommendations != []
    ensures r.radarData == RadarData(d) && r.factorImpacts == FactorImpacts(d)
  {
    var score := AccumulateScore(d);
    score := Max(0, Min(200, score));
    var predictedG3 := JsRound(score, 10);

    var cookedScore := Max(1, Min(10, JsRound(220 - score, 20)));
    if d.failures >= 3 { cookedScore := Max(cookedScore, 9); }

    var riskLevel := AcademicWeapon;
    var probFail := 5;
    if predictedG3 < 10 {
      riskLevel := if predictedG3 < 7 then SuperCooked else Cooked;
      probFail := 80 + (10 - predictedG3) * 4;
    } else if predictedG3 < 14 {
      riskLevel := Mid;
      probFail := 30 - (predictedG3 - 10) * 5;
    } else {
      riskLevel := AcademicWeapon;
      probFail := 5;
    }
    probFail := Min(99, Max(1, probFail));

    var recommendations := PushRecommendations(d, predictedG3);

    r := AnalysisResult(
      cookedScore, predictedG3, riskLevel, probFail, recommendations,
      RadarData(d), FactorImpacts(d));
  }

  // ---------------------------------------------------------------------
  // Properties of the specification
  // ---------------------------------------------------------------------

  /** The baseline is 11.5 without prior grades, otherwise the mean of the
      non-zero ones (a single non-zero grade counts alone). */
  lemma BaselineFromPriorGrades(d: StudentData)
    requires d.g1 >= 0 && d.g2 >= 0
    ensures d.g1 == 0 && d.g2 == 0 ==> Baseline(d) == 115
    ensures d.g1 > 0 && d.g2 > 0 ==> 2 * Baseline(d) == 10 * (d.g1 + d.g2)
    ensures d.g1 > 0 && d.g2 == 0 ==> Baseline(d) == 10 * d.g1
    ensures d.g1 == 0 && d.g2 > 0 ==> Baseline(d) == 10 * d.g2
  {
  }

  /** Only the failures step depends on the failure count: one more failure
      lowers every partial score after that step by exactly 1.8. */
  lemma {:induction false} OneMoreFailureShift(d: StudentData, k: nat)
    requires k <= FactorCount
    ensures ScoreAfter(d.(failures := d.failures + 1), k) == ScoreAfter(d, k) - (if k == 0 then 0 else 18)
  {
    var e := d.(failures := d.failures + 1);
    if k > 0 {
      OneMoreFailureShift(d, k - 1);
      var f := FactorAt(k - 1);
      assert f == Failures <==> k == 1;
      assert Adjustment(e, f) == Adjustment(d, f) - (if f == Failures then 18 else 0) by {
        if f != Failures { FailuresOnlyInOneStep(d, e, f); }
      }
    }
  }

  lemma FailuresOnlyInOneStep(d: StudentData, e: StudentData, f: Factor)
    requires e == d.(failures := e.failures) && f != Failures
    ensures Adjustment(e, f) == Adjustment(d, f)
  {
  }

  /** Raising failures by one, all else fixed, never raises predictedG3 and
      never lowers cookedScore. */
  lemma MoreFailuresNeverHelp(d: StudentData)
    ensures PredictedG3(d.(failures := d.failures + 1)) <= PredictedG3(d)
    ensures CookedScore(d.(failures := d.failures + 1)) >= CookedScore(d)
  {
    var e := d.(failures := d.failures + 1);
    OneMoreFailureShift(d, FactorCount);
    assert RawScore(e) == RawScore(d) - 18;
    assert ClampedScore(e) <= ClampedScore(d);
    JsRoundMonotone(ClampedScore(e), ClampedScore(d), 10);
    JsRoundMonotone(220 - ClampedScore(d), 220 - ClampedScore(e), 20);
  }

  /** The tier follows predictedG3 through the thresholds 7, 10 and 14, and a
      lower grade never gives a less severe tier. */
  lemma RiskTiers(p: int, q: int)
    ensures RiskLevelOf(p) == SuperCooked <==> p < 7
    ensures RiskLevelOf(p) == Cooked <==> 7 <= p < 10
    ensures RiskLevelOf(p) == Mid <==> 10 <= p < 14
    ensures RiskLevelOf(p) == AcademicWeapon <==> p >= 14
    ensures p <= q ==> Severity(RiskLevelOf(p)) >= Severity(RiskLevelOf(q))
  {
  }

  /** The failure probability as a function of the predicted grade. */
  lemma FailureProbabilityCases(p: int)
    requires 0 <= p <= 20
    ensures p >= 14 ==> ProbabilityOfFailing(p) == 5
    ensures 10 <= p < 14 ==> ProbabilityOfFailing(p) == 30 - 5 * (p - 10)
    ensures p < 10 ==> ProbabilityOfFailing(p) >= 84
  {
  }
}
