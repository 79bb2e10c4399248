/**
 * The stand-alone BMR and TDEE helpers. They are not called by the web
 * handlers, which carry their own case-sensitive BMR formula.
 */
module UtilBmr {
  import opened Common
  import opened Text
  import opened Formula
  import AppHealth

  /** The coefficient set chosen by the gender string, compared after lower-casing. */
  function CoefficientsFor(gender: string): (c: Coefficients)
    ensures c == MaleCoefficients <==> IsCasingOf(gender, "male")
    ensures c != MaleCoefficients ==> c == OtherCoefficients
  {
    LowerEqualsIffCasing(gender, "male");
    if Lower(gender) == "male" then MaleCoefficients else OtherCoefficients
  }

  /** BMR before rounding to two places. */
  function CalculateBmr(age: int, gender: string, height: real, weight: real): (r: real)
    ensures IsCasingOf(gender, "male") ==>
      r == 88.362 + 13.397 * weight + 4.799 * height - 5.677 * (age as real)
    ensures !IsCasingOf(gender, "male") ==>
      r == 447.593 + 9.247 * weight + 3.098 * height - 4.330 * (age as real)
  {
    Linear(CoefficientsFor(gender), age, height, weight)
  }

  /** Whichever coefficients the gender picks, the value grows with weight and height and falls with age. */
  lemma UtilBmrShape(age: int, age': int, gender: string, height: real, height': real, weight: real, weight': real)
    ensures weight < weight' ==> CalculateBmr(age, gender, height, weight) < CalculateBmr(age, gender, height, weight')
    ensures height < height' ==> CalculateBmr(age, gender, height, weight) < CalculateBmr(age, gender, height', weight)
    ensures age < age' ==> CalculateBmr(age', gender, height, weight) < CalculateBmr(age, gender, height, weight)
  {
    LinearMonotone(CoefficientsFor(gender), age, age', height, height', weight, weight');
  }

  /** Two gender strings that lower-case alike give the same BMR. */
  lemma GenderCaseInsensitive(age: int, g: string, g': string, height: real, weight: real)
    requires Lower(g) == Lower(g')
    ensures CalculateBmr(age, g, height, weight) == CalculateBmr(age, g', height, weight)
  {
    LowerEqualsIffCasing(g, "male");
    LowerEqualsIffCasing(g', "male");
  }

  /** A worked example: 25 years, male, 180 cm, 75 kg gives 1815.032 before rounding. */
  lemma BmrExample()
    ensures CalculateBmr(25, "male", 180.0, 75.0) == 1815.032
  {
    assert IsCasingOf("male", "male");
  }

  /**
   * The web handler's formula agrees with this one except on casings of
   * "male" other than "male" itself, such as "Male".
   */
  lemma AppAndUtilAgreement(age: int, gender: string, height: real, weight: real)
    ensures gender == "male" || !IsCasingOf(gender, "male") ==>
      AppHealth.CalculateBmr(age, gender, height, weight) == CalculateBmr(age, gender, height, weight)
    ensures AppHealth.CalculateBmr(25, "Male", 180.0, 75.0) != CalculateBmr(25, "Male", 180.0, 75.0)
  {
    if gender == "male" {
      assert IsCasingOf(gender, "male");
    }
    assert IsCasingOf("Male", "male");
  }

  // ---------------------------------------------------------------- activity and TDEE

  datatype Activity = Sedentary | Light | Moderate | Active | VeryActive

  /** The table key of each level. */
  function Key(a: Activity): string
  {
    match a
    case Sedentary => "sedentary"
    case Light => "light"
    case Moderate => "moderate"
    case Active => "active"
    case VeryActive => "very_active"
  }

  /** The multiplier of each level. */
  function Rate(a: Activity): real
  {
    match a
    case Sedentary => 1.2
    case Light => 1.375
    case Moderate => 1.55
    case Active => 1.725
    case VeryActive => 1.9
  }

  /** The position of a level from least to most active. */
  function Rank(a: Activity): nat
  {
    match a
    case Sedentary => 0
    case Light => 1
    case Moderate => 2
    case Active => 3
    case VeryActive => 4
  }

  /** The level an activity string names, compared after lower-casing; none for an unknown string. */
  function LookupActivity(level: string): (r: Option<Activity>)
    ensures forall a :: r == Some(a) <==> IsCasingOf(level, Key(a))
  {
    var l := Lower(level);
    LowerEqualsIffCasing(level, Key(Sedentary));
    LowerEqualsIffCasing(level, Key(Light));
    LowerEqualsIffCasing(level, Key(Moderate));
    LowerEqualsIffCasing(level, Key(Active));
    LowerEqualsIffCasing(level, Key(VeryActive));
    if l == "sedentary" then Some(Sedentary)
    else if l == "light" then Some(Light)
    else if l == "moderate" then Some(Moderate)
    else if l == "active" then Some(Active)
    else if l == "very_active" then Some(VeryActive)
    else None
  }

  /** The fallback multiplier for a level the table does not know. */
  const DefaultRate: real := 1.55

  /**
   * The multiplier for an optional activity argument: an omitted argument means
   * "moderate", and an unknown level falls back to the moderate rate.
   */
  function Multiplier(level: Option<string>): (m: real)
    ensures level.None? ==> m == Rate(Moderate)
    ensures level.Some? ==> forall a :: IsCasingOf(level.value, Key(a)) ==> m == Rate(a)
    ensures level.Some? && LookupActivity(level.value).None? ==> m == Rate(Moderate)
    ensures m > 1.0
  {
    var given := if level.Some? then level.value else "moderate";
    match LookupActivity(given)
    case Some(a) => Rate(a)
    case None => DefaultRate
  }

  /** TDEE before rounding to two places. */
  function CalculateTdee(bmr: real, level: Option<string>): (r: real)
    ensures bmr >= 0.0 ==> r >= bmr
    ensures bmr > 0.0 ==> r > bmr
  {
    GrowsByFactor(bmr, Multiplier(level));
    bmr * Multiplier(level)
  }

  /** Each table key is already lower-case, so it spells itself. */
  lemma KeySpellsItself(a: Activity)
    ensures IsCasingOf(Key(a), Key(a))
  {
    var k := Key(a);
    forall i | 0 <= i < |k|
      ensures LowerChar(k[i]) == k[i]
    {
      assert k[i] == '_' || 'a' <= k[i] <= 'z';
    }
  }

  /** The table: each key, in any casing, gets its multiplier. */
  lemma MultiplierTable()
    ensures Multiplier(Some("sedentary")) == 1.2
    ensures Multiplier(Some("light")) == 1.375
    ensures Multiplier(Some("moderate")) == 1.55
    ensures Multiplier(Some("active")) == 1.725
    ensures Multiplier(Some("very_active")) == 1.9
    ensures Multiplier(Some("Very_Active")) == 1.9
  {
    KeySpellsItself(Sedentary);
    KeySpellsItself(Light);
    KeySpellsItself(Moderate);
    KeySpellsItself(Active);
    KeySpellsItself(VeryActive);
    assert IsCasingOf("Very_Active", Key(VeryActive));
  }

  /** A worked example: a BMR of 1755.67 at the sedentary level gives 2106.804 before rounding. */
  lemma TdeeExample()
    ensures CalculateTdee(1755.67, Some("sedentary")) == 2106.804
  {
    KeySpellsItself(Sedentary);
  }

  /** The multipliers strictly increase from sedentary to very active. */
  lemma RatesIncrease(a: Activity, b: Activity)
    ensures Rank(a) < Rank(b) <==> Rate(a) < Rate(b)
  {
  }

  /** An omitted level and an unknown level both compute the moderate TDEE. */
  lemma DefaultIsModerate(bmr: real, level: string)
    requires LookupActivity(level).None?
    ensures CalculateTdee(bmr, None) == CalculateTdee(bmr, Some(level))
    ensures CalculateTdee(bmr, None) == CalculateTdee(bmr, Some("moderate"))
  {
    KeySpellsItself(Moderate);
  }

  /** For a non-negative BMR, a more active level never gives a smaller TDEE. */
  lemma TdeeMonotoneInActivity(bmr: real, a: Activity, b: Activity, level: string, level': string)
    requires bmr >= 0.0
    requires IsCasingOf(level, Key(a)) && IsCasingOf(level', Key(b))
    requires Rank(a) <= Rank(b)
    ensures CalculateTdee(bmr, Some(level)) <= CalculateTdee(bmr, Some(level'))
  {
    assert Rate(a) <= Rate(b);
    ScaleWeak(bmr, Rate(a), Rate(b));
  }

  /**
   * For every positive BMR, the diet page's calorie figure before rounding
   * (BMR times 1.5) is below the helper's default TDEE (BMR times 1.55).
   */
  lemma DietBelowDefaultTdee(bmr: real)
    requires bmr > 0.0
    ensures bmr * AppHealth.DietMultiplier < CalculateTdee(bmr, None)
  {
    ScaleStrict(bmr, AppHealth.DietMultiplier, Multiplier(None));
  }
}
