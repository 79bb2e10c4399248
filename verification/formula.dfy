/**
 * The linear energy formula both BMR calculators share. The coefficients are
 * those of the revised Harris-Benedict equation.
 */
module Formula {

  datatype Coefficients = Coefficients(base: real, perKg: real, perCm: real, perYear: real)

  const MaleCoefficients := Coefficients(88.362, 13.397, 4.799, 5.677)
  const OtherCoefficients := Coefficients(447.593, 9.247, 3.098, 4.330)

  /** Basal energy from weight in kg, height in cm and age in years, before any rounding. */
  function Linear(c: Coefficients, age: int, height: real, weight: real): real
  {
    c.base + c.perKg * weight + c.perCm * height - c.perYear * (age as real)
  }

  /** Weight and height add energy, age takes it away. */
  predicate Increasing(c: Coefficients)
  {
    c.perKg > 0.0 && c.perCm > 0.0 && c.perYear > 0.0
  }

  /** Multiplying by a positive factor keeps a strict order. */
  lemma ScaleStrict(k: real, x: real, y: real)
    requires k > 0.0 && x < y
    ensures k * x < k * y
  {
    assert k * y - k * x == k * (y - x);
  }

  /** Multiplying by a non-negative factor keeps a weak order. */
  lemma ScaleWeak(k: real, x: real, y: real)
    requires k >= 0.0 && x <= y
    ensures k * x <= k * y
  {
    assert k * y - k * x == k * (y - x);
  }

  /** A factor above one never shrinks a non-negative value and grows a positive one. */
  lemma GrowsByFactor(x: real, m: real)
    requires m > 1.0
    ensures x >= 0.0 ==> x * m >= x
    ensures x > 0.0 ==> x * m > x
  {
    if x > 0.0 { ScaleStrict(x, 1.0, m); }
  }

  /** The formula strictly increases with weight and height and strictly decreases with age. */
  lemma LinearMonotone(c: Coefficients, age: int, age': int, height: real, height': real,
                                          weight: real, weight': real)
    requires Increasing(c)
    ensures weight < weight' ==> Linear(c, age, height, weight) < Linear(c, age, height, weight')
    ensures height < height' ==> Linear(c, age, height, weight) < Linear(c, age, height', weight)
    ensures age < age' ==> Linear(c, age', height, weight) < Linear(c, age, height, weight)
  {
    if weight < weight' { ScaleStrict(c.perKg, weight, weight'); }
    if height < height' { ScaleStrict(c.perCm, height, height'); }
    if age < age' { ScaleStrict(c.perYear, age as real, age' as real); }
  }
}
