/** A body of water with a mass and a temperature, which can be heated or
    cooled and can take in another body of water. */
module WaterBodies {
  import opened Outcomes

  /** Why mixing is refused: the masses add up to zero, so there is nothing
      to divide by. */
  datatype WaterError = ZeroTotalMass

  /** Integer division rounded towards negative infinity, for either sign of
      the divisor (Dafny's own `/` is Euclidean, which agrees with it only
      for a positive divisor). */
  function FloorDiv(a: int, b: int): (q: int)
    requires b != 0
    ensures b > 0 ==> q * b <= a < q * b + b
    ensures b < 0 ==> q * b + b < a <= q * b
  {
    if b > 0 then a / b else (-a) / (-b)
  }

  /** Only one integer lies in the range that FloorDiv promises. */
  lemma FloorDivUnique(a: int, b: int, q: int)
    requires b > 0 ==> q * b <= a < q * b + b
    requires b < 0 ==> q * b + b < a <= q * b
    requires b != 0
    ensures FloorDiv(a, b) == q
  {
    var f := FloorDiv(a, b);
    if f < q {
      MulMonotone(f + 1, q, b);
    } else if q < f {
      MulMonotone(q + 1, f, b);
    }
  }

  /** Multiplying by a positive factor keeps order; by a negative one, turns
      it round. */
  lemma MulMonotone(x: int, y: int, b: int)
    requires x <= y
    ensures b >= 0 ==> x * b <= y * b
    ensures b <= 0 ==> y * b <= x * b
  {
    var d := y - x;
    assert y * b == x * b + d * b;
  }

  /** The temperature after mixing: the mass-weighted mean of the two
      temperatures, rounded down. */
  function MixedTemperature(mass: int, temperature: int, otherMass: int, otherTemperature: int): int
    requires mass + otherMass != 0
  {
    FloorDiv(mass * temperature + otherMass * otherTemperature, mass + otherMass)
  }

  /** When neither mass is negative the mix is never hotter than the hotter
      body nor colder than the colder one. */
  lemma MixedTemperatureBetween(mass: int, temperature: int, otherMass: int, otherTemperature: int)
    requires 0 <= mass && 0 <= otherMass && mass + otherMass != 0
    ensures temperature <= otherTemperature ==>
              temperature <= MixedTemperature(mass, temperature, otherMass, otherTemperature) <= otherTemperature
    ensures otherTemperature <= temperature ==>
              otherTemperature <= MixedTemperature(mass, temperature, otherMass, otherTemperature) <= temperature
  {
    var total := mass + otherMass;
    var heat := mass * temperature + otherMass * otherTemperature;
    var t := MixedTemperature(mass, temperature, otherMass, otherTemperature);
    var lo := if temperature <= otherTemperature then temperature else otherTemperature;
    var hi := if temperature <= otherTemperature then otherTemperature else temperature;
    WeightedBetween(mass, temperature, otherMass, otherTemperature, lo, hi);
    if t < lo {
      MulMonotone(t + 1, lo, total);
    }
    if hi < t {
      MulMonotone(hi, t, total);
    }
  }

  /** The heat of two non-negative masses lies between the total mass taken
      at the lower and at the higher temperature. */
  lemma WeightedBetween(mass: int, temperature: int, otherMass: int, otherTemperature: int, lo: int, hi: int)
    requires 0 <= mass && 0 <= otherMass
    requires lo <= temperature <= hi && lo <= otherTemperature <= hi
    ensures (mass + otherMass) * lo <= mass * temperature + otherMass * otherTemperature
    ensures mass * temperature + otherMass * otherTemperature <= (mass + otherMass) * hi
  {
    MulMonotone(lo, temperature, mass);
    MulMonotone(temperature, hi, mass);
    MulMonotone(lo, otherTemperature, otherMass);
    MulMonotone(otherTemperature, hi, otherMass);
  }

  /** Mixing a body with an equal copy of itself keeps its temperature:
      the rounding loses nothing. */
  lemma MixSelfKeepsTemperature(mass: int, temperature: int)
    requires mass != 0
    ensures MixedTemperature(mass, temperature, mass, temperature) == temperature
  {
    var total := mass + mass;
    assert mass * temperature + mass * temperature == temperature * total;
    FloorDivUnique(temperature * total, total, temperature);
  }

  class Water {
    var mass: int
    var temperature: int

    /** Neither mass nor temperature is checked. */
    constructor (mass: int, temperature: int)
      ensures this.mass == mass && this.temperature == temperature
    {
      this.mass := mass;
      this.temperature := temperature;
    }

    /** Adds `delta` to the temperature, with no lower bound; the mass stays. */
    method ChangeTemperature(delta: int)
      modifies this
      ensures temperature == old(temperature) + delta
      ensures mass == old(mass)
    {
      temperature := temperature + delta;
    }

    /** Pours `other` into this body: the masses add up and the temperature
        becomes the rounded-down weighted mean, both worked out from the
        values before the call, so that `other` may be this very body.
        A different `other` is left as it was. Masses adding up to zero are
        refused with nothing changed. */
    method AddingWater(other: Water) returns (r: Outcome<WaterError>)
      modifies this
      ensures r == Pass <==> old(mass) + old(other.mass) != 0
      ensures r == Pass ==> mass == old(mass) + old(other.mass)
      ensures r == Pass ==>
                temperature == MixedTemperature(old(mass), old(temperature), old(other.mass), old(other.temperature))
      ensures r.Fail? ==> r.error == ZeroTotalMass && mass == old(mass) && temperature == old(temperature)
      ensures other != this ==> other.mass == old(other.mass) && other.temperature == old(other.temperature)
      ensures other == this && r == Pass ==> mass == 2 * old(mass) && temperature == old(temperature)
    {
      var total := mass + other.mass;
      if total == 0 {
        return Fail(ZeroTotalMass);
      }
      if other == this {
        MixSelfKeepsTemperature(mass, temperature);
      }
      temperature := MixedTemperature(mass, temperature, other.mass, other.temperature);
      mass := total;
      r := Pass;
    }
  }

  /** The mixing example of the method's documentation: 1000 at 20 and 500 at
      40 give 1500 at 26. */
  method AddingWaterExample() returns (r: Outcome<WaterError>, mass: int, temperature: int, otherMass: int)
    ensures r == Pass && mass == 1500 && temperature == 26 && otherMass == 500
  {
    var water := new Water(1000, 20);
    var other := new Water(500, 40);
    r := water.AddingWater(other);
    FloorDivUnique(40000, 1500, 26);
    mass, temperature, otherMass := water.mass, water.temperature, other.mass;
  }

  /** The temperature example of the method's documentation: 20 raised by 10. */
  method ChangeTemperatureExample() returns (temperature: int)
    ensures temperature == 30
  {
    var water := new Water(1000, 20);
    water.ChangeTemperature(10);
    temperature := water.temperature;
  }

  /** A body poured into itself doubles its mass and keeps its temperature. */
  method SelfMixExample() returns (mass: int, temperature: int)
    ensures mass == 2000 && temperature == 20
  {
    var water := new Water(1000, 20);
    var r := water.AddingWater(water);
    mass, temperature := water.mass, water.temperature;
  }
}
