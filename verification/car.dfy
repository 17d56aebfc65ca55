/** A car with an engine power, a fuel tank of fixed capacity and the fuel
    currently in the tank. */
module Cars {
  import opened Outcomes

  /** Why a refilling is refused. */
  datatype FuelError = NegativeVolume | OverCapacity

  /** One refilling on plain values: the fuel in the tank afterwards, or the
      reason the refilling is refused. A negative volume is refused before
      the capacity is looked at. */
  function Refill(fuel: int, capacity: int, volume: int): (r: Result<int, FuelError>)
    ensures r.Ok? <==> 0 <= volume <= capacity - fuel
    ensures r.Ok? ==> r.value - fuel == volume
    ensures r.Err? ==> (r.error == NegativeVolume <==> volume < 0)
    ensures r.Ok? && 0 <= fuel ==> 0 <= r.value <= capacity
  {
    if volume < 0 then Err(NegativeVolume)
    else if fuel + volume > capacity then Err(OverCapacity)
    else Ok(fuel + volume)
  }

  /** The fuel in the tank after trying each refilling of `volumes` in turn,
      where a refused refilling leaves the tank as it was. */
  function RefillAll(fuel: int, capacity: int, volumes: seq<int>): int
    decreases |volumes|
  {
    if volumes == [] then fuel
    else
      match Refill(fuel, capacity, volumes[0])
      case Ok(next) => RefillAll(next, capacity, volumes[1..])
      case Err(_) => RefillAll(fuel, capacity, volumes[1..])
  }

  /** However many refillings are tried, accepted or refused, a tank that
      starts within its capacity stays within it. */
  lemma {:induction false} RefillsStayInTank(fuel: int, capacity: int, volumes: seq<int>)
    requires 0 <= fuel <= capacity
    ensures 0 <= RefillAll(fuel, capacity, volumes) <= capacity
    decreases |volumes|
  {
    if volumes != [] {
      match Refill(fuel, capacity, volumes[0])
      case Ok(next) => RefillsStayInTank(next, capacity, volumes[1..]);
      case Err(_) => RefillsStayInTank(fuel, capacity, volumes[1..]);
    }
  }

  /** The fuel never drops: every sequence of refillings ends with at least
      the fuel it started with. */
  lemma {:induction false} RefillsNeverDrain(fuel: int, capacity: int, volumes: seq<int>)
    ensures fuel <= RefillAll(fuel, capacity, volumes)
    decreases |volumes|
  {
    if volumes != [] {
      match Refill(fuel, capacity, volumes[0])
      case Ok(next) => RefillsNeverDrain(next, capacity, volumes[1..]);
      case Err(_) => RefillsNeverDrain(fuel, capacity, volumes[1..]);
    }
  }

  class Car {
    var enginePower: int
    var fuelVolume: int
    var currentFuel: int

    /** The tank holds no negative fuel and no more than its capacity. */
    predicate Valid()
      reads this
    {
      0 <= currentFuel <= fuelVolume
    }

    /** A new car has an empty tank; its arguments are not checked, so the
        tank invariant holds exactly when the capacity is not negative. */
    constructor (enginePower: int, fuelVolume: int)
      ensures this.enginePower == enginePower && this.fuelVolume == fuelVolume
      ensures currentFuel == 0
      ensures Valid() <==> fuelVolume >= 0
    {
      this.enginePower := enginePower;
      this.fuelVolume := fuelVolume;
      currentFuel := 0;
    }

    /** Pours `volume` into the tank, or refuses (negative volume first, then
        overflow) and changes nothing. Only the fuel ever changes. */
    method Refilling(volume: int) returns (r: Outcome<FuelError>)
      modifies this
      ensures enginePower == old(enginePower) && fuelVolume == old(fuelVolume)
      ensures volume < 0 ==> r == Fail(NegativeVolume) && currentFuel == old(currentFuel)
      ensures 0 <= volume && old(currentFuel) + volume > fuelVolume ==>
                r == Fail(OverCapacity) && currentFuel == old(currentFuel)
      ensures 0 <= volume && old(currentFuel) + volume <= fuelVolume ==>
                r == Pass && currentFuel == old(currentFuel) + volume
      ensures currentFuel == RefillAll(old(currentFuel), fuelVolume, [volume])
      ensures old(Valid()) ==> Valid()
    {
      match Refill(currentFuel, fuelVolume, volume)
      case Ok(next) =>
        currentFuel := next;
        r := Pass;
      case Err(e) =>
        r := Fail(e);
    }

    /** Adds `deltaPower` to the engine power, negative or not; the tank is
        left alone. */
    method EngineUpgrade(deltaPower: int)
      modifies this
      ensures enginePower == old(enginePower) + deltaPower
      ensures fuelVolume == old(fuelVolume) && currentFuel == old(currentFuel)
      ensures old(Valid()) ==> Valid()
    {
      enginePower := enginePower + deltaPower;
    }
  }

  /** The refilling example of the method's documentation: a 50-litre tank takes
      20 litres, then refuses 40 more. */
  method RefillingExample() returns (first: Outcome<FuelError>, fuel: int, second: Outcome<FuelError>)
    ensures first == Pass && fuel == 20 && second == Fail(OverCapacity)
  {
    var car := new Car(150, 50);
    first := car.Refilling(20);
    fuel := car.currentFuel;
    second := car.Refilling(40);
  }

  /** The engine example of the method's documentation: 150 raised by 20. */
  method EngineUpgradeExample() returns (power: int)
    ensures power == 170
  {
    var car := new Car(150, 50);
    car.EngineUpgrade(20);
    power := car.enginePower;
  }
}
