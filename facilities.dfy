/** Facilities: a motor-vehicle agency branch. It offers a list of services;
    each of its operations takes effect only when the service it needs is
    listed, and otherwise reports failure and changes nothing. */
module Facilities {
  import opened Vehicles
  import opened Licensing
  import opened Registrants

  const VEHICLE_REGISTRATION := "Vehicle Registration"
  const WRITTEN_TEST := "Written Test"
  const ROAD_TEST := "Road Test"
  const RENEW_LICENSE := "Renew License"

  /** The total of a list of fees. */
  function Sum(fees: seq<nat>): (r: nat) {
    if fees == [] then 0 else fees[0] + Sum(fees[1..])
  }

  lemma {:induction false} SumAppend(fees: seq<nat>, fee: nat)
    ensures Sum(fees + [fee]) == Sum(fees) + fee
  {
    if fees != [] {
      assert (fees + [fee])[1..] == fees[1..] + [fee];
      SumAppend(fees[1..], fee);
    }
  }

  class Facility {
    const name: string
    const address: string
    const phone: string
    var services: seq<string>
    var collectedFees: nat
    var registeredVehicles: seq<Vehicle>
    /** The fee charged for each registered vehicle, in registration order. */
    ghost var feeLog: seq<nat>

    /** Every registration charged one fee, and the collected fees are their total. */
    ghost predicate Valid()
      reads this
    {
      |feeLog| == |registeredVehicles| && collectedFees == Sum(feeLog)
    }

    /** A service is offered only under exactly its listed name. */
    predicate Offers(service: string)
      reads this
    {
      service in services
    }

    constructor (name: string, address: string, phone: string)
      ensures Valid()
      ensures this.name == name && this.address == address && this.phone == phone
      ensures services == [] && collectedFees == 0 && registeredVehicles == [] && feeLog == []
    {
      this.name := name;
      this.address := address;
      this.phone := phone;
      services := [];
      collectedFees := 0;
      registeredVehicles := [];
      feeLog := [];
    }

    /** Appends a service name; names are neither checked nor deduplicated. */
    method AddService(service: string)
      requires Valid()
      modifies this
      ensures Valid()
      ensures services == old(services) + [service]
      ensures forall s :: Offers(s) <==> old(Offers(s)) || s == service
      ensures collectedFees == old(collectedFees)
      ensures registeredVehicles == old(registeredVehicles) && feeLog == old(feeLog)
    {
      services := services + [service];
    }

    /** Registers `vehicle` on `today` when vehicle registration is offered:
        the vehicle gets its plate and registration date, its fee is collected
        and it joins the registered vehicles. Otherwise nothing changes. */
    method RegisterVehicle(vehicle: Vehicle, today: Date) returns (ok: bool)
      requires Valid()
      modifies this, vehicle
      ensures Valid()
      ensures ok == Offers(VEHICLE_REGISTRATION)
      ensures services == old(services)
      ensures ok ==> && vehicle.Valid() && vehicle.IsRegistered()
                     && vehicle.plateType == Some(PlateFor(vehicle.engine, vehicle.year, today.year))
                     && vehicle.registrationDate == Some(today)
                     && collectedFees == old(collectedFees) + Fee(vehicle.plateType.value)
                     && feeLog == old(feeLog) + [Fee(vehicle.plateType.value)]
                     && registeredVehicles == old(registeredVehicles) + [vehicle]
      ensures !ok ==> && unchanged(vehicle)
                      && collectedFees == old(collectedFees)
                      && feeLog == old(feeLog)
                      && registeredVehicles == old(registeredVehicles)
    {
      ok := VEHICLE_REGISTRATION in services;
      if ok {
        var plate := PlateFor(vehicle.engine, vehicle.year, today.year);
        vehicle.plateType := Some(plate);
        vehicle.registrationDate := Some(today);
        SumAppend(feeLog, Fee(plate));
        collectedFees := collectedFees + Fee(plate);
        feeLog := feeLog + [Fee(plate)];
        registeredVehicles := registeredVehicles + [vehicle];
      }
    }

    /** Gives the written test: it needs the service offered, a permit and the
        minimum age, and on success records the written test as passed. */
    method AdministerWrittenTest(registrant: Registrant) returns (ok: bool)
      requires registrant.Valid()
      modifies registrant
      ensures registrant.Valid()
      ensures ok == Succeeds(old(registrant.State()), WrittenTestTaken(Offers(WRITTEN_TEST)))
      ensures registrant.State() == Step(old(registrant.State()), WrittenTestTaken(Offers(WRITTEN_TEST)))
    {
      ok := WRITTEN_TEST in services && registrant.age >= MINIMUM_TEST_AGE && registrant.permit;
      if ok {
        registrant.licenseData := registrant.licenseData.(written := true);
      }
    }

    /** Gives the road test: it needs the service offered, a permit and a
        passed written test, and on success records the license. */
    method AdministerRoadTest(registrant: Registrant) returns (ok: bool)
      requires registrant.Valid()
      modifies registrant
      ensures registrant.Valid()
      ensures ok == Succeeds(old(registrant.State()), RoadTestTaken(Offers(ROAD_TEST)))
      ensures registrant.State() == Step(old(registrant.State()), RoadTestTaken(Offers(ROAD_TEST)))
    {
      ok := ROAD_TEST in services && registrant.permit && registrant.licenseData.written;
      if ok {
        registrant.licenseData := registrant.licenseData.(license := true);
      }
    }

    /** Renews a license: it needs the renewal service offered and a license
        already held, and on success records the renewal. */
    method RenewDriversLicense(registrant: Registrant) returns (ok: bool)
      requires registrant.Valid()
      modifies registrant
      ensures registrant.Valid()
      ensures ok == Succeeds(old(registrant.State()), RenewalRequested(Offers(RENEW_LICENSE)))
      ensures registrant.State() == Step(old(registrant.State()), RenewalRequested(Offers(RENEW_LICENSE)))
    {
      ok := RENEW_LICENSE in services && registrant.licenseData.license;
      if ok {
        registrant.licenseData := registrant.licenseData.(renewed := true);
      }
    }
  }
}
