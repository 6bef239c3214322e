/** Vehicles: the engine and plate-type enumerations, the plate and fee rule
    applied at registration, and the Vehicle object that a facility updates. */
module Vehicles {

  datatype Option<T> = None | Some(value: T)

  /** A calendar date; only its year takes part in the plate rule. */
  datatype Date = Date(year: int, month: nat, day: nat)

  datatype Engine = Ice | Ev

  datatype PlateType = Regular | Antique | Ev

  /** A vehicle is antique when it is more than this many years old. */
  const ANTIQUE_AGE := 25

  /** The plate a vehicle of the given engine and model year receives when it
      is registered in `currentYear`: an electric engine decides before age does. */
  function PlateFor(engine: Engine, year: int, currentYear: int): (p: PlateType)
    ensures p.Ev? <==> engine.Ev?
    ensures p.Antique? <==> engine.Ice? && currentYear - year > ANTIQUE_AGE
    ensures p.Regular? <==> engine.Ice? && currentYear - year <= ANTIQUE_AGE
  {
    if engine == Engine.Ev then PlateType.Ev
    else if currentYear - year > ANTIQUE_AGE then Antique
    else Regular
  }

  /** The registration fee charged for each plate type. */
  function Fee(p: PlateType): (r: nat) {
    match p
    case Regular => 100
    case Antique => 25
    case Ev => 200
  }

  /** The fee charged for registering a vehicle follows from its engine and
      age alone: 200 for an electric engine, whatever the year; otherwise 25
      when more than ANTIQUE_AGE years old and 100 when not. */
  lemma RegistrationFee(engine: Engine, year: int, currentYear: int)
    ensures engine.Ev? ==> Fee(PlateFor(engine, year, currentYear)) == 200
    ensures engine.Ice? && currentYear - year > ANTIQUE_AGE ==> Fee(PlateFor(engine, year, currentYear)) == 25
    ensures engine.Ice? && currentYear - year <= ANTIQUE_AGE ==> Fee(PlateFor(engine, year, currentYear)) == 100
  {
  }

  class Vehicle {
    const vin: string
    const year: int
    const make: string
    const model: string
    const engine: Engine
    var plateType: Option<PlateType>
    var registrationDate: Option<Date>

    /** Plate type and registration date are set together, and the plate is
        the one the rule gives for the year of registration. */
    ghost predicate Valid()
      reads this
    {
      && plateType.Some? == registrationDate.Some?
      && (plateType.Some? ==> plateType.value == PlateFor(engine, year, registrationDate.value.year))
    }

    predicate IsRegistered()
      reads this
    {
      registrationDate.Some?
    }

    constructor (vin: string, year: int, make: string, model: string, engine: Engine)
      ensures Valid() && !IsRegistered()
      ensures this.vin == vin && this.year == year && this.make == make
      ensures this.model == model && this.engine == engine
      ensures plateType == None && registrationDate == None
    {
      this.vin := vin;
      this.year := year;
      this.make := make;
      this.model := model;
      this.engine := engine;
      plateType := None;
      registrationDate := None;
    }
  }
}
