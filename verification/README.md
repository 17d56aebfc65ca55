# Car, Person and Water — a verified model

`task1.py` holds three independent classes, each a small state machine whose
guarded mutator methods update a few fields in place:

- `Car` keeps an engine power, a fuel-tank capacity and the fuel in the tank.
  `refilling` refuses a negative volume, then refuses a fill that would
  overflow the tank, and otherwise adds the volume. `engine_upgrade` adds to
  the power with no bound.
- `Person` keeps a name, an age, a marital status code and an optional
  partner name. `set_marital_status` accepts only the codes 0 and 1.
  `set_partner_name` is refused while the status is 0.
- `Water` keeps a mass and a temperature. `change_temperature` adds a delta.
  `adding_water` pours another body in: the masses add up, and the new
  temperature is the mass-weighted mean rounded down (Python's `//`).

Each class is a Dafny `class` (modules `Cars`, `People`, `WaterBodies`) whose
methods `modify this` and state the whole new state. A refused call returns
`Fail(e)` (module `Outcomes`) and changes nothing; an accepted one returns
`Pass`. The raised exceptions become these error values: `NegativeVolume`,
`OverCapacity`, `UnknownStatus`, `NoPartnerWhileSingle` and `ZeroTotalMass`.

Beside the classes there are a few pure functions with lemmas:
- `Refill` is one refilling on plain values.
- `RefillAll` is a sequence of refillings.
- `FloorDiv` is Python's floor division for either sign of divisor.
- `MixedTemperature` is the rounded weighted mean.

Behaviour of the code that is easy to miss:
- The status is an integer code, and the setter accepts only 0 and 1
  (task1.py:107), so the codes 2 and 3 listed at task1.py:77 are refused.
- `set_marital_status` never clears the partner's name (task1.py:109), so a
  single person can still hold a partner's name
  (`People.PartnerSurvivesDivorce`).
- The constructors check nothing, so a capacity or a mass can be negative.
- Mixing two bodies whose masses sum to zero raises `ZeroDivisionError` before
  any field is written. The model returns `Fail(ZeroTotalMass)` with no
  change.

## Model

| member | source | states |
|---|---|---|
| `Cars.Refill` | task1.py:43-48 | a refilling is accepted exactly when 0 <= volume <= capacity - fuel; it then adds exactly the volume and keeps a non-negative tank within capacity; a refusal is `NegativeVolume` exactly when the volume is negative |
| `Cars.RefillAll` | task1.py:43-48 | the fuel after a run of refillings, each refused one caught by the caller and leaving the tank as it was |
| `Cars.RefillsStayInTank` | task1.py:19-48 | from any fuel in [0, capacity], any sequence of refillings, accepted or refused, ends with fuel still in [0, capacity] |
| `Cars.RefillsNeverDrain` | task1.py:43-48 | no sequence of refillings lowers the fuel |
| `Cars.Car.constructor` | task1.py:16-19 | power and capacity as given, unchecked; the tank starts empty; the tank invariant holds exactly when the capacity is non-negative |
| `Cars.Car.Refilling` | task1.py:21-48 | a negative volume fails with `NegativeVolume`; an overflowing fill fails with `OverCapacity`; both leave every field unchanged; otherwise the fuel rises by exactly the volume; power and capacity never change; the tank invariant is preserved; the result agrees with `RefillAll` on a one-element sequence |
| `Cars.Car.EngineUpgrade` | task1.py:50-67 | the power becomes old power + delta for any integer delta, negative included; the fuel fields are untouched |
| `Cars.RefillingExample` | task1.py:32-39 | Car(150, 50): refilling 20 succeeds with 20 in the tank, then refilling 40 fails with `OverCapacity` |
| `Cars.EngineUpgradeExample` | task1.py:60-63 | Car(150, 50) upgraded by 20 has power 170 |
| `People.Person.constructor` | task1.py:84-88 | name and age as given, unchecked; status 0; no partner |
| `People.Person.SetMaritalStatus` | task1.py:90-109 | succeeds exactly when the status is 0 or 1 and then sets it; otherwise fails with `UnknownStatus` and changes nothing; name, age and partner are never touched |
| `People.Person.SetPartnerName` | task1.py:111-132 | fails with `NoPartnerWhileSingle` and changes nothing exactly when the status is 0, whatever the name; otherwise records the name; nothing else changes |
| `People.PartnerExample` | task1.py:100-103 | Alice, 25, set to status 1, then given partner "Bob", has status 1 and partner "Bob" (also the example at task1.py:122-126) |
| `People.DocumentedStatusesRefused` | task1.py:77 | the statuses 2 and 3 named in the class documentation are refused, and the status stays 0 |
| `People.PartnerSurvivesDivorce` | task1.py:107-132 | after marrying, naming a partner and returning to status 0, the person is single with the partner still recorded, and a new partner is refused |
| `WaterBodies.FloorDiv` | task1.py:191 | the quotient is the floor of a / b: q*b <= a < q*b + b for a positive divisor, and mirrored for a negative one |
| `WaterBodies.FloorDivUnique` | task1.py:191 | any integer in the floor range is the quotient, so the floor quotient is unique |
| `WaterBodies.MixedTemperature` | task1.py:190-191 | `FloorDiv` of mass*temperature + otherMass*otherTemperature by mass + otherMass, defined whenever the total mass is non-zero |
| `WaterBodies.MixedTemperatureBetween` | task1.py:190-191 | with non-negative masses, the mixed temperature lies between the two temperatures |
| `WaterBodies.MixSelfKeepsTemperature` | task1.py:190-191 | mixing a non-zero mass with an equal copy of itself keeps its temperature exactly |
| `WaterBodies.Water.constructor` | task1.py:147-149 | mass and temperature as given, unchecked |
| `WaterBodies.Water.ChangeTemperature` | task1.py:151-168 | the temperature becomes old temperature + delta; the mass is unchanged |
| `WaterBodies.Water.AddingWater` | task1.py:170-192 | with a non-zero total, the mass becomes the sum of the old masses; the temperature becomes the rounded-down weighted mean of the old values; a different `other` is unchanged; poured into itself, the body doubles its mass and keeps its temperature; a zero total fails with `ZeroTotalMass` and changes nothing |
| `WaterBodies.AddingWaterExample` | task1.py:180-186 | Water(1000, 20) mixed with Water(500, 40) gives mass 1500 and temperature 26, and the added body keeps mass 500 |
| `WaterBodies.ChangeTemperatureExample` | task1.py:161-164 | Water(1000, 20) warmed by 10 is at 30 |
| `WaterBodies.SelfMixExample` | task1.py:190-192 | Water(1000, 20) poured into itself has mass 2000 and temperature 20 |

## Left out

- The `isinstance` checks that raise `TypeError` (task1.py:41-42, 65-66, 105-106, 128-129, 166-167, 188-189). The parameters are statically typed, so these checks cannot fail. Python's `bool`-is-`int` quirk has no counterpart.
- The exception messages. Errors are values of `FuelError`, `PersonError` and `WaterError`, not text.
- The `doctest` runner under `__main__` (task1.py:195-197). The documented examples are stated as the `…Example` methods instead.
- Attribute assignments from outside the classes. Python lets callers write any field; the model changes fields only through the methods.
