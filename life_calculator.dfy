/**
 * The lifestyle-adjusted life expectancy estimate: a base per country
 * code, then fixed additive adjustments for four lifestyle flags.
 */
module LifeCalculator {

  /** The `switch` on the country code: three countries are listed, every other code gets 80. */
  function BaseExpectancy(nationality: string): (base: int)
    ensures base == 84 <==> nationality == "jp"
    ensures base == 78 <==> nationality == "us"
    ensures base == 83 <==> nationality == "es"
    ensures base == 80 <==> nationality !in {"jp", "us", "es"}
  {
    match nationality
    case "jp" => 84
    case "us" => 78
    case "es" => 83
    case _ => 80
  }

  /** The integer value of a flag: 1 when set, 0 otherwise. */
  function Indicator(b: bool): (v: nat)
    ensures v <= 1
    ensures v == 1 <==> b
  {
    if b then 1 else 0
  }

  /** The estimate in closed form: base + 2*[healthyFood] + 3*[running] - 2*[alcohol] - 5*[smoking]. */
  function LifeExpectancy(nationality: string, healthyFood: bool, running: bool, alcohol: bool, smoking: bool): int {
    BaseExpectancy(nationality)
      + 2 * Indicator(healthyFood) + 3 * Indicator(running)
      - 2 * Indicator(alcohol) - 5 * Indicator(smoking)
  }

  /** `getLifeExpectancy`: a local accumulator set by the `switch`, then adjusted step by step. */
  method GetLifeExpectancy(nationality: string, healthyFood: bool, running: bool, alcohol: bool, smoking: bool)
    returns (baseExpectancy: int)
    ensures baseExpectancy == LifeExpectancy(nationality, healthyFood, running, alcohol, smoking)
  {
    baseExpectancy := 80;
    match nationality {
      case "jp" => baseExpectancy := 84;
      case "us" => baseExpectancy := 78;
      case "es" => baseExpectancy := 83;
      case _ => baseExpectancy := 80;
    }
    if healthyFood { baseExpectancy := baseExpectancy + 2; }
    if running { baseExpectancy := baseExpectancy + 3; }
    if alcohol { baseExpectancy := baseExpectancy - 2; }
    if smoking { baseExpectancy := baseExpectancy - 5; }
  }

  /** Every estimate lies in [71, 89]: the base is in {78, 80, 83, 84} and the adjustments in [-7, +5]. */
  lemma ExpectancyRange(nationality: string, healthyFood: bool, running: bool, alcohol: bool, smoking: bool)
    ensures 71 <= LifeExpectancy(nationality, healthyFood, running, alcohol, smoking) <= 89
  {
  }

  /** Toggling one flag moves the estimate by that flag's fixed amount, whatever the other inputs. */
  lemma FlagsIndependent(nationality: string, healthyFood: bool, running: bool, alcohol: bool, smoking: bool)
    ensures LifeExpectancy(nationality, true, running, alcohol, smoking)
         == LifeExpectancy(nationality, false, running, alcohol, smoking) + 2
    ensures LifeExpectancy(nationality, healthyFood, true, alcohol, smoking)
         == LifeExpectancy(nationality, healthyFood, false, alcohol, smoking) + 3
    ensures LifeExpectancy(nationality, healthyFood, running, true, smoking)
         == LifeExpectancy(nationality, healthyFood, running, false, smoking) - 2
    ensures LifeExpectancy(nationality, healthyFood, running, alcohol, true)
         == LifeExpectancy(nationality, healthyFood, running, alcohol, false) - 5
  {
  }

  /** A country the form offers but the switch does not name, such as "ar", gets the default base. */
  lemma DefaultBase()
    ensures BaseExpectancy("ar") == 80
    ensures LifeExpectancy("ar", false, false, false, false) == 80
  {
  }

  lemma Scenarios()
    ensures LifeExpectancy("jp", true, true, false, false) == 89
    ensures LifeExpectancy("us", false, false, true, true) == 71
  {
  }
}
