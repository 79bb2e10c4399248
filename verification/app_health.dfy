/**
 * The signed-in metric pages: the BMR page (which stores its result on the
 * account), the lifestyle risk assessment and the diet plan.
 */
module AppHealth {
  import opened Common
  import opened Accounts
  import opened Formula

  /**
   * The BMR formula of the web handler. Its gender test is case-sensitive:
   * only the exact string "male" gets the male coefficients.
   */
  function CalculateBmr(age: int, gender: string, height: real, weight: real): (r: real)
    ensures gender == "male" ==>
      r == 88.362 + 13.397 * weight + 4.799 * height - 5.677 * (age as real)
    ensures gender != "male" ==>
      r == 447.593 + 9.247 * weight + 3.098 * height - 4.330 * (age as real)
  {
    if gender == "male" then Linear(MaleCoefficients, age, height, weight)
    else Linear(OtherCoefficients, age, height, weight)
  }

  /** Whichever coefficients the gender picks, the BMR is monotone in every input. */
  lemma AppBmrShape(age: int, age': int, gender: string, height: real, height': real, weight: real, weight': real)
    ensures weight < weight' ==> CalculateBmr(age, gender, height, weight) < CalculateBmr(age, gender, height, weight')
    ensures height < height' ==> CalculateBmr(age, gender, height, weight) < CalculateBmr(age, gender, height', weight)
    ensures age < age' ==> CalculateBmr(age', gender, height, weight) < CalculateBmr(age, gender, height, weight)
  {
    var c := if gender == "male" then MaleCoefficients else OtherCoefficients;
    LinearMonotone(c, age, age', height, height', weight, weight');
  }

  /** The message band of a BMR value. */
  datatype BmrBand = LowBmr | NormalBmr | HighBmr

  const LowBmrLimit: real := 1400.0
  const HighBmrLimit: real := 1800.0

  function BandOf(v: real): BmrBand
  {
    if v < LowBmrLimit then LowBmr
    else if v < HighBmrLimit then NormalBmr
    else HighBmr
  }

  function BandRank(b: BmrBand): nat
  {
    match b
    case LowBmr => 0
    case NormalBmr => 1
    case HighBmr => 2
  }

  function BandMessage(b: BmrBand): string
  {
    match b
    case LowBmr => "Your BMR is low. You may need to improve calorie intake."
    case NormalBmr => "Your BMR is within a normal range."
    case HighBmr => "Your BMR is high. You burn calories faster than average."
  }

  /** The bands split the reals at 1400 and 1800, and a larger value never gets a lower band. */
  lemma BmrBands(v: real, v': real)
    ensures BandOf(v) == LowBmr <==> v < 1400.0
    ensures BandOf(v) == NormalBmr <==> 1400.0 <= v < 1800.0
    ensures BandOf(v) == HighBmr <==> 1800.0 <= v
    ensures v <= v' ==> BandRank(BandOf(v)) <= BandRank(BandOf(v'))
  {
  }

  /** A protected page either redirects to login or shows its page. */
  datatype Guarded<P> = ToLogin | Shown(page: P)

  /** The request names a signed-in user whose account still exists. */
  predicate Authenticated(s: Store, current: Option<Email>)
  {
    current.Some? && current.value in s.accounts
  }

  datatype BmrRequest = BmrGet | BmrPost(age: int, gender: string, height: real, weight: real)

  /** The rounded BMR and the message of its band. */
  datatype BmrPage = BmrPage(result: Option<real>, message: Option<string>)

  /** `after` is `before` with only its stored BMR replaced. */
  predicate SameExceptBmr(before: Account, after: Account)
  {
    after == before.(bmr := after.bmr)
  }

  /**
   * The `bmr` handler. The value is rounded to two places by `round2`, stored
   * on the signed-in account, and banded on that stored value.
   */
  function Bmr(s: Store, current: Option<Email>, req: BmrRequest, round2: real -> real): (r: Reply<Guarded<BmrPage>>)
    ensures !Authenticated(s, current) ==> r == Reply(s, ToLogin)
    ensures Authenticated(s, current) && req.BmrGet? ==> r == Reply(s, Shown(BmrPage(None, None)))
    ensures Authenticated(s, current) && req.BmrPost? ==>
      var e := current.value;
      var v := round2(CalculateBmr(req.age, req.gender, req.height, req.weight));
      && r.outcome.Shown? && r.outcome.page.result == Some(v)
      && r.store.nextId == s.nextId
      && r.store.accounts.Keys == s.accounts.Keys
      && (forall f :: f in s.accounts && f != e ==> r.store.accounts[f] == s.accounts[f])
      && SameExceptBmr(s.accounts[e], r.store.accounts[e])
      && r.store.accounts[e].bmr == Some(v)
      // the message is banded on the value that was stored
      && r.outcome.page.message == Some(BandMessage(BandOf(r.store.accounts[e].bmr.value)))
  {
    if !Authenticated(s, current) then Reply(s, ToLogin)
    else match req
      case BmrGet => Reply(s, Shown(BmrPage(None, None)))
      case BmrPost(age, gender, height, weight) =>
        var e := current.value;
        var v := round2(CalculateBmr(age, gender, height, weight));
        Reply(s.(accounts := s.accounts[e := s.accounts[e].(bmr := Some(v))]),
              Shown(BmrPage(Some(v), Some(BandMessage(BandOf(v))))))
  }

  /** Storing a BMR keeps the store valid. */
  lemma BmrPreservesValid(s: Store, current: Option<Email>, req: BmrRequest, round2: real -> real)
    requires Valid(s)
    ensures Valid(Bmr(s, current, req, round2).store)
  {
    var r := Bmr(s, current, req, round2);
    if Authenticated(s, current) && req.BmrPost? {
      var e := current.value;
      forall f | f in r.store.accounts
        ensures r.store.accounts[f].email == f && r.store.accounts[f].id == s.accounts[f].id
      {
        if f == e {
          assert SameExceptBmr(s.accounts[e], r.store.accounts[e]);
        }
      }
    }
  }

  // ---------------------------------------------------------------- health assessment

  /** The five self-reported sub-scores; their ranges are not checked. */
  datatype Habits = Habits(smoking: int, alcohol: int, exercise: int, sleep: int, stress: int)

  function Score(h: Habits): int
  {
    h.smoking + h.alcohol + h.exercise + h.sleep + h.stress
  }

  datatype Risk = LowRisk | ModerateRisk | HighRisk

  const LowRiskLimit: int := 5
  const ModerateRiskLimit: int := 12

  function RiskOf(score: int): Risk
  {
    if score <= LowRiskLimit then LowRisk
    else if score <= ModerateRiskLimit then ModerateRisk
    else HighRisk
  }

  function RiskRank(r: Risk): nat
  {
    match r
    case LowRisk => 0
    case ModerateRisk => 1
    case HighRisk => 2
  }

  function RiskLabel(r: Risk): string
  {
    match r
    case LowRisk => "Low Risk"
    case ModerateRisk => "Moderate Risk"
    case HighRisk => "High Risk"
  }

  function RiskMessage(r: Risk): string
  {
    match r
    case LowRisk => "Your lifestyle habits are generally healthy."
    case ModerateRisk => "Some improvements in lifestyle are recommended."
    case HighRisk => "Immediate lifestyle changes are advised."
  }

  /** The risk bands cover every integer score exactly once, and a larger score never gets a lower band. */
  lemma RiskBands(score: int, score': int)
    ensures RiskOf(score) == LowRisk <==> score <= 5
    ensures RiskOf(score) == ModerateRisk <==> 6 <= score <= 12
    ensures RiskOf(score) == HighRisk <==> 12 < score
    ensures score <= score' ==> RiskRank(RiskOf(score)) <= RiskRank(RiskOf(score'))
  {
  }

  /** Scores 5, 6, 12 and 13 sit on either side of the two thresholds. */
  lemma RiskBoundaries()
    ensures RiskLabel(RiskOf(5)) == "Low Risk"
    ensures RiskLabel(RiskOf(6)) == "Moderate Risk"
    ensures RiskLabel(RiskOf(12)) == "Moderate Risk"
    ensures RiskLabel(RiskOf(13)) == "High Risk"
  {
  }

  datatype AssessRequest = AssessGet | AssessPost(habits: Habits)

  /** The assessment shown: the band's label and its advice. */
  datatype Assessment = Assessment(result: string, message: string)

  /** The `health_assessment` handler: bands the summed score; nothing is stored. */
  function HealthAssessment(s: Store, current: Option<Email>, req: AssessRequest): (r: Guarded<Option<Assessment>>)
    ensures !Authenticated(s, current) ==> r == ToLogin
    ensures Authenticated(s, current) && req.AssessGet? ==> r == Shown(None)
    ensures Authenticated(s, current) && req.AssessPost? ==>
      && r.Shown? && r.page.Some?
      && (r.page.value.result == "Low Risk" <==> Score(req.habits) <= 5)
      && (r.page.value.result == "Moderate Risk" <==> 6 <= Score(req.habits) <= 12)
      && (r.page.value.result == "High Risk" <==> 12 < Score(req.habits))
      && r.page.value.message == RiskMessage(RiskOf(Score(req.habits)))
  {
    if !Authenticated(s, current) then ToLogin
    else match req
      case AssessGet => Shown(None)
      case AssessPost(h) =>
        var risk := RiskOf(Score(h));
        Shown(Some(Assessment(RiskLabel(risk), RiskMessage(risk))))
  }

  // ---------------------------------------------------------------- diet plan

  /** The diet page's fixed calorie multiplier, "assume moderate activity". */
  const DietMultiplier: real := 1.5

  const Plan: seq<string> := [
    "Breakfast: Oatmeal with fruits + milk",
    "Snack: Handful of nuts",
    "Lunch: Grilled chicken / tofu + brown rice + vegetables",
    "Snack: Yogurt or fruit smoothie",
    "Dinner: Fish / lentils + salad + whole grains"
  ]

  const DietNote := "This is a general diet plan. Adjust portions as per your needs."

  datatype DietRequest = DietGet | DietPost(bmr: real)

  datatype DietPage = DietPage(plan: Option<seq<string>>, calories: Option<int>, message: Option<string>)

  /** The `diet_plan` handler; `roundInt` is the rounding of the calorie figure to a whole number. */
  function DietPlan(s: Store, current: Option<Email>, req: DietRequest, roundInt: real -> int): (r: Guarded<DietPage>)
    ensures !Authenticated(s, current) ==> r == ToLogin
    ensures Authenticated(s, current) && req.DietGet? ==> r == Shown(DietPage(None, None, None))
    ensures Authenticated(s, current) && req.DietPost? ==>
      && r.Shown? && r.page.plan == Some(Plan) && r.page.message == Some(DietNote)
      && r.page.calories == Some(roundInt(req.bmr * 1.5))
  {
    if !Authenticated(s, current) then ToLogin
    else match req
      case DietGet => Shown(DietPage(None, None, None))
      case DietPost(bmr) => Shown(DietPage(Some(Plan), Some(roundInt(bmr * DietMultiplier)), Some(DietNote)))
  }

  /** The plan is the same five meals whatever BMR is submitted. */
  lemma PlanIgnoresBmr(s: Store, current: Option<Email>, bmr: real, bmr': real, roundInt: real -> int)
    requires Authenticated(s, current)
    ensures DietPlan(s, current, DietPost(bmr), roundInt).page.plan
         == DietPlan(s, current, DietPost(bmr'), roundInt).page.plan
    ensures |Plan| == 5
  {
  }
}
